/**
 * The behavioural scoring engine of the verification server
 * (server/src/main.rs): three analysers over the recorded events, the
 * weighted combination of their results into a score in [0, 1], and the
 * verdict at the 0.7 threshold.
 *
 * The square root is a parameter `sqrt`; the one fact a lemma needs of it
 * is `RootOfZero`.
 */
module Scoring {
  import opened Text
  import opened Protocol

  const PassThreshold: real := 0.7
  const SuccessMessage: string := "Verification successful." + " Human behavior" + " pattern confirmed."
  const FailureMessage: string := "Verification failed." + " Automated behavior" + " pattern detected."

  /** The square root of zero is zero. */
  ghost predicate RootOfZero(sqrt: real -> real)
  {
    sqrt(0.0) == 0.0
  }

  // ---------------------------------------------------------------------
  // Sums, means and variances (the iterator sums of the analysers)

  function Sum(s: seq<real>): real
  {
    if s == [] then 0.0 else Sum(s[..|s| - 1]) + s[|s| - 1]
  }

  function Mean(s: seq<real>): real
    requires s != []
  {
    Sum(s) / |s| as real
  }

  /** The sum of `(x - m)^2` over the elements `x` of `s`. */
  function SquaredDeviations(s: seq<real>, m: real): real
  {
    if s == [] then 0.0 else SquaredDeviations(s[..|s| - 1], m) + (s[|s| - 1] - m) * (s[|s| - 1] - m)
  }

  /** The population variance. */
  function Variance(s: seq<real>): real
    requires s != []
  {
    SquaredDeviations(s, Mean(s)) / |s| as real
  }

  lemma {:induction false} SquaredDeviationsNonNegative(s: seq<real>, m: real)
    ensures SquaredDeviations(s, m) >= 0.0
  {
    if s != [] {
      SquaredDeviationsNonNegative(s[..|s| - 1], m);
      var d := s[|s| - 1] - m;
      assert d * d >= 0.0;
    }
  }

  lemma VarianceNonNegative(s: seq<real>)
    requires s != []
    ensures Variance(s) >= 0.0
  {
    SquaredDeviationsNonNegative(s, Mean(s));
  }

  /** A sequence whose elements all equal `v` has mean `v` and variance 0. */
  lemma ConstantSequence(s: seq<real>, v: real)
    requires s != []
    requires forall i :: 0 <= i < |s| ==> s[i] == v
    ensures Mean(s) == v && Variance(s) == 0.0
  {
    ConstantSum(s, v);
    ConstantDeviations(s, v);
  }

  lemma {:induction false} ConstantSum(s: seq<real>, v: real)
    requires forall i :: 0 <= i < |s| ==> s[i] == v
    ensures Sum(s) == |s| as real * v
  {
    if s != [] {
      ConstantSum(s[..|s| - 1], v);
    }
  }

  lemma {:induction false} ConstantDeviations(s: seq<real>, v: real)
    requires forall i :: 0 <= i < |s| ==> s[i] == v
    ensures SquaredDeviations(s, v) == 0.0
  {
    if s != [] {
      ConstantDeviations(s[..|s| - 1], v);
    }
  }

  // ---------------------------------------------------------------------
  // Linearity (server/src/main.rs:82-120)

  /** The line `a*x + b*y + c = 0`. */
  datatype Line = Line(a: real, b: real, c: real)

  /** The line through the positions of `p` and `q` (server/src/main.rs:95-97). */
  function LineThrough(p: MouseEvent, q: MouseEvent): Line
  {
    Line(p.y - q.y, q.x - p.x, p.x * q.y - q.x * p.y)
  }

  /** `r` lies on the straight line through `p` and `q`: the cross product of `q - p` and `r - p` is zero. */
  predicate Collinear(p: MouseEvent, q: MouseEvent, r: MouseEvent)
  {
    (q.x - p.x) * (r.y - p.y) == (q.y - p.y) * (r.x - p.x)
  }

  function Abs(x: real): real
  {
    if x < 0.0 then -x else x
  }

  /** `a^2 + b^2`, whose root normalises the distance from the line. */
  function NormSquared(l: Line): real
  {
    l.a * l.a + l.b * l.b
  }

  /** The distance of `p` from `l`, given `den`, the norm of `(l.a, l.b)`. */
  function Distance(l: Line, den: real, p: MouseEvent): real
    requires den != 0.0
  {
    Abs(l.a * p.x + l.b * p.y + l.c) / den
  }

  function TotalDeviation(l: Line, den: real, ps: seq<MouseEvent>): real
    requires den != 0.0
  {
    if ps == [] then 0.0 else TotalDeviation(l, den, ps[..|ps| - 1]) + Distance(l, den, ps[|ps| - 1])
  }

  /** What `analyze_mouse_linearity` returns: 0 for a "bot" straight line, 1 otherwise. */
  function LinearityScore(events: seq<MouseEvent>, sqrt: real -> real): (r: real)
    ensures r == 0.0 || r == 1.0
  {
    if |events| < 3 then 1.0
    else
      var l := LineThrough(events[0], events[|events| - 1]);
      var den := sqrt(NormSquared(l));
      if den == 0.0 then 0.0
      else if TotalDeviation(l, den, events) / |events| as real < 0.5 then 0.0
      else 1.0
  }

  method AnalyzeMouseLinearity(events: seq<MouseEvent>, sqrt: real -> real) returns (score: real)
    ensures score == LinearityScore(events, sqrt)
  {
    if |events| < 3 {
      return 1.0;
    }
    var line := LineThrough(events[0], events[|events| - 1]);
    var denominator := sqrt(NormSquared(line));
    if denominator == 0.0 {
      return 0.0;
    }
    var totalDeviation := 0.0;
    for i := 0 to |events|
      invariant totalDeviation == TotalDeviation(line, denominator, events[..i])
    {
      var distance := Distance(line, denominator, events[i]);
      totalDeviation := totalDeviation + distance;
      assert events[..i + 1][..i] == events[..i];
    }
    assert events[..|events|] == events;
    var avgDeviation := totalDeviation / |events| as real;
    if avgDeviation < 0.5 {
      return 0.0;
    }
    return 1.0;
  }

  /** Fewer than three points are never judged linear. */
  lemma LinearityFewPoints(events: seq<MouseEvent>, sqrt: real -> real)
    requires |events| < 3
    ensures LinearityScore(events, sqrt) == 1.0
  {
  }

  /** A path that ends where it started scores as a bot. */
  lemma LinearityClosedPath(events: seq<MouseEvent>, sqrt: real -> real)
    requires RootOfZero(sqrt)
    requires |events| >= 3
    requires events[0].x == events[|events| - 1].x && events[0].y == events[|events| - 1].y
    ensures LinearityScore(events, sqrt) == 0.0
  {
    var l := LineThrough(events[0], events[|events| - 1]);
    assert l.a == 0.0 && l.b == 0.0;
    assert NormSquared(l) == 0.0;
  }

  /** Being on the line through `p` and `q` is being collinear with them. */
  lemma OnLineThrough(p: MouseEvent, q: MouseEvent, r: MouseEvent)
    ensures var l := LineThrough(p, q);
            l.a * r.x + l.b * r.y + l.c == 0.0 <==> Collinear(p, q, r)
  {
    var l := LineThrough(p, q);
    assert l.a * r.x + l.b * r.y + l.c == (q.x - p.x) * (r.y - p.y) - (q.y - p.y) * (r.x - p.x);
  }

  lemma {:induction false} ZeroDeviation(l: Line, den: real, ps: seq<MouseEvent>)
    requires den != 0.0
    requires forall i :: 0 <= i < |ps| ==> l.a * ps[i].x + l.b * ps[i].y + l.c == 0.0
    ensures TotalDeviation(l, den, ps) == 0.0
  {
    if ps != [] {
      ZeroDeviation(l, den, ps[..|ps| - 1]);
    }
  }

  /** Every point of the path on the first-to-last line: a perfectly straight path scores as a bot. */
  lemma LinearityStraightPath(events: seq<MouseEvent>, sqrt: real -> real)
    requires |events| >= 3
    requires forall i :: 0 <= i < |events| ==> Collinear(events[0], events[|events| - 1], events[i])
    ensures LinearityScore(events, sqrt) == 0.0
  {
    var l := LineThrough(events[0], events[|events| - 1]);
    var den := sqrt(NormSquared(l));
    if den != 0.0 {
      forall i | 0 <= i < |events|
        ensures l.a * events[i].x + l.b * events[i].y + l.c == 0.0
      {
        OnLineThrough(events[0], events[|events| - 1], events[i]);
      }
      ZeroDeviation(l, den, events);
    }
  }

  // ---------------------------------------------------------------------
  // Speed (server/src/main.rs:122-164)

  /** The squared length of the displacement `(dx, dy)`. */
  function SquaredLength(dx: real, dy: real): real
  {
    dx * dx + dy * dy
  }

  /** The speed over one window, defined when time advances. */
  function SegmentSpeed(p1: MouseEvent, p2: MouseEvent, sqrt: real -> real): real
    requires p2.t - p1.t > 0.0
  {
    sqrt(SquaredLength(p2.x - p1.x, p2.y - p1.y)) / (p2.t - p1.t)
  }

  /** The speeds of the windows whose time delta is positive, in order (the `variances` vector). */
  function Speeds(events: seq<MouseEvent>, sqrt: real -> real): (r: seq<real>)
    ensures |r| <= if |events| < 2 then 0 else |events| - 1
  {
    if |events| < 2 then []
    else
      var p1, p2 := events[|events| - 2], events[|events| - 1];
      Speeds(events[..|events| - 1], sqrt) + (if p2.t - p1.t > 0.0 then [SegmentSpeed(p1, p2, sqrt)] else [])
  }

  /** What `analyze_mouse_speed` returns. */
  function SpeedScore(events: seq<MouseEvent>, sqrt: real -> real): (r: real)
    ensures r == 0.0 || r == 1.0
    ensures r == 1.0 <==>
            var v := Speeds(events, sqrt);
            v != [] && Variance(v) >= 0.0001 && Mean(v) <= 5.0
  {
    var v := Speeds(events, sqrt);
    if v == [] then 0.0
    else if Variance(v) < 0.0001 then 0.0
    else if Mean(v) > 5.0 then 0.0
    else 1.0
  }

  method AnalyzeMouseSpeed(events: seq<MouseEvent>, sqrt: real -> real) returns (score: real)
    ensures score == SpeedScore(events, sqrt)
  {
    var variances: seq<real> := [];
    var totalSpeed := 0.0;
    var count := 0;
    // one iteration per window `events[i - 1], events[i]`
    var i := 1;
    while i < |events|
      invariant 1 <= i && (|events| > 0 ==> i <= |events|)
      invariant variances == Speeds(events[..if i < |events| then i else |events|], sqrt)
      invariant totalSpeed == Sum(variances) && count == |variances|
    {
      var p1, p2 := events[i - 1], events[i];
      assert events[..i + 1][..i] == events[..i];
      if p2.t - p1.t > 0.0 {
        var speed := SegmentSpeed(p1, p2, sqrt);
        variances := variances + [speed];
        totalSpeed := totalSpeed + speed;
        count := count + 1;
      }
      i := i + 1;
    }
    assert variances == Speeds(events, sqrt) by {
      assert events[..|events|] == events;
    }
    if count == 0 {
      return 0.0;
    }
    assert totalSpeed / count as real == Mean(variances);
    var avgSpeed := totalSpeed / count as real;
    var variance := SquaredDeviations(variances, avgSpeed) / count as real;
    if variance < 0.0001 {
      return 0.0;
    }
    if avgSpeed > 5.0 {
      return 0.0;
    }
    return 1.0;
  }

  /** Time never advances between consecutive samples (`count == 0`). */
  predicate TimeStands(events: seq<MouseEvent>)
  {
    forall i :: 0 < i < |events| ==> events[i].t - events[i - 1].t <= 0.0
  }

  lemma {:induction false} NoSpeedsWhenTimeStands(events: seq<MouseEvent>, sqrt: real -> real)
    requires TimeStands(events)
    ensures Speeds(events, sqrt) == []
  {
    if |events| >= 2 {
      NoSpeedsWhenTimeStands(events[..|events| - 1], sqrt);
    }
  }

  /** With no window of positive duration the speed score is 0. */
  lemma SpeedWithoutMotionTime(events: seq<MouseEvent>, sqrt: real -> real)
    requires TimeStands(events)
    ensures SpeedScore(events, sqrt) == 0.0
  {
    NoSpeedsWhenTimeStands(events, sqrt);
  }

  /** Perfectly constant speed (variance 0) scores 0. */
  lemma SpeedConstant(events: seq<MouseEvent>, sqrt: real -> real, v: real)
    requires forall i :: 0 <= i < |Speeds(events, sqrt)| ==> Speeds(events, sqrt)[i] == v
    ensures SpeedScore(events, sqrt) == 0.0
  {
    var s := Speeds(events, sqrt);
    if s != [] {
      ConstantSequence(s, v);
    }
  }

  /** A mean speed above 5 px/ms scores 0. */
  lemma SpeedSuperhuman(events: seq<MouseEvent>, sqrt: real -> real)
    requires Speeds(events, sqrt) != [] && Mean(Speeds(events, sqrt)) > 5.0
    ensures SpeedScore(events, sqrt) == 0.0
  {
  }

  /** Every window moves by the same `(dx, dy)` in the same `dt`. */
  predicate UniformSteps(events: seq<MouseEvent>, dx: real, dy: real, dt: real)
  {
    forall i :: 0 < i < |events| ==>
      events[i].x - events[i - 1].x == dx && events[i].y - events[i - 1].y == dy && events[i].t - events[i - 1].t == dt
  }

  lemma {:induction false} UniformSpeeds(events: seq<MouseEvent>, sqrt: real -> real, dx: real, dy: real, dt: real)
    requires dt > 0.0 && UniformSteps(events, dx, dy, dt)
    ensures forall i :: 0 <= i < |Speeds(events, sqrt)| ==> Speeds(events, sqrt)[i] == sqrt(SquaredLength(dx, dy)) / dt
  {
    if |events| >= 2 {
      var prefix := events[..|events| - 1];
      assert UniformSteps(prefix, dx, dy, dt);
      UniformSpeeds(prefix, sqrt, dx, dy, dt);
      var p1, p2 := events[|events| - 2], events[|events| - 1];
      assert p2.x - p1.x == dx && p2.y - p1.y == dy && p2.t - p1.t == dt;
      assert SegmentSpeed(p1, p2, sqrt) == sqrt(SquaredLength(dx, dy)) / dt;
      assert Speeds(events, sqrt) == Speeds(prefix, sqrt) + [SegmentSpeed(p1, p2, sqrt)];
    }
  }

  /** Equal steps at equal intervals, the signature of a scripted pointer, score 0 for speed. */
  lemma SpeedUniformMotion(events: seq<MouseEvent>, sqrt: real -> real, dx: real, dy: real, dt: real)
    requires dt > 0.0 && UniformSteps(events, dx, dy, dt)
    ensures SpeedScore(events, sqrt) == 0.0
  {
    UniformSpeeds(events, sqrt, dx, dy, dt);
    SpeedConstant(events, sqrt, sqrt(SquaredLength(dx, dy)) / dt);
  }

  // ---------------------------------------------------------------------
  // Keystrokes (server/src/main.rs:166-194)

  /** The time between consecutive key presses. */
  function Intervals(events: seq<KeyEvent>): (r: seq<real>)
    ensures |r| == if |events| < 2 then 0 else |events| - 1
  {
    if |events| < 2 then []
    else Intervals(events[..|events| - 1]) + [events[|events| - 1].t - events[|events| - 2].t]
  }

  /** The `i`-th interval is the gap between press `i` and press `i + 1`. */
  lemma {:induction false} IntervalAt(events: seq<KeyEvent>, i: nat)
    requires i + 1 < |events|
    ensures Intervals(events)[i] == events[i + 1].t - events[i].t
  {
    if i + 2 < |events| {
      IntervalAt(events[..|events| - 1], i);
    }
  }

  /** What `analyze_keystrokes` returns: 0.5 (neutral), 0 (bot) or 1 (human). */
  function KeystrokeScore(events: seq<KeyEvent>): (r: real)
    ensures r == 0.0 || r == 0.5 || r == 1.0
    ensures r == 0.5 <==> |events| < 2
    ensures r == 1.0 <==> |events| >= 2 && Mean(Intervals(events)) >= 50.0 && Variance(Intervals(events)) >= 10.0
  {
    if |events| < 2 then 0.5
    else
      var intervals := Intervals(events);
      if Mean(intervals) < 50.0 then 0.0
      else if Variance(intervals) < 10.0 then 0.0
      else 1.0
  }

  method AnalyzeKeystrokes(events: seq<KeyEvent>) returns (score: real)
    ensures score == KeystrokeScore(events)
  {
    if |events| < 2 {
      return 0.5;
    }
    var intervals: seq<real> := [];
    for i := 1 to |events|
      invariant intervals == Intervals(events[..i])
    {
      var t1, t2 := events[i - 1].t, events[i].t;
      intervals := intervals + [t2 - t1];
      assert events[..i + 1][..i] == events[..i];
    }
    assert intervals == Intervals(events) by {
      assert events[..|events|] == events;
    }
    var avgInterval := Sum(intervals) / |intervals| as real;
    assert avgInterval == Mean(intervals);
    if avgInterval < 50.0 {
      return 0.0;
    }
    var variance := SquaredDeviations(intervals, avgInterval) / |intervals| as real;
    if variance < 10.0 {
      return 0.0;
    }
    return 1.0;
  }

  /** The intervals add up to the time between the first and the last key press. */
  lemma {:induction false} IntervalsTelescope(events: seq<KeyEvent>)
    requires |events| >= 1
    ensures Sum(Intervals(events)) == events[|events| - 1].t - events[0].t
  {
    if |events| >= 2 {
      IntervalsTelescope(events[..|events| - 1]);
    }
  }

  /** The mean interval is the typing span divided by the number of gaps. */
  lemma KeystrokeMeanIsSpan(events: seq<KeyEvent>)
    requires |events| >= 2
    ensures Mean(Intervals(events)) == (events[|events| - 1].t - events[0].t) / (|events| - 1) as real
  {
    var iv := Intervals(events);
    IntervalsTelescope(events);
    assert Sum(iv) == events[|events| - 1].t - events[0].t;
    assert |iv| == |events| - 1;
    assert Mean(iv) == Sum(iv) / |iv| as real;
  }

  /** Typing faster than 50 ms per key on average scores as a bot. */
  lemma KeystrokeTooFast(events: seq<KeyEvent>)
    requires |events| >= 2
    requires events[|events| - 1].t - events[0].t < 50.0 * (|events| - 1) as real
    ensures KeystrokeScore(events) == 0.0
  {
    KeystrokeMeanIsSpan(events);
    var n := (|events| - 1) as real;
    var span := events[|events| - 1].t - events[0].t;
    assert span / n < 50.0 by {
      assert span < 50.0 * n;
    }
  }

  /** Perfectly even typing (all intervals equal) scores as a bot. */
  lemma KeystrokeEvenRhythm(events: seq<KeyEvent>, gap: real)
    requires |events| >= 2
    requires forall i :: 0 < i < |events| ==> events[i].t - events[i - 1].t == gap
    ensures KeystrokeScore(events) == 0.0
  {
    var iv := Intervals(events);
    forall i | 0 <= i < |iv| ensures iv[i] == gap {
      IntervalAt(events, i);
    }
    ConstantSequence(iv, gap);
  }

  // ---------------------------------------------------------------------
  // Combination (server/src/main.rs:40-80)

  /** The mouse part of the score: 0.4 * linearity + 0.2 * speed, or 0.1 for a few events. */
  function MouseContribution(req: VerifyRequest, sqrt: real -> real): real
  {
    if |req.mouseEvents| > 10 then
      LinearityScore(req.mouseEvents, sqrt) * 0.4 + SpeedScore(req.mouseEvents, sqrt) * 0.2
    else if |req.mouseEvents| > 0 then 0.1
    else 0.0
  }

  /** The keyboard part: 0.4 * keystroke score, or the 0.2 bonus for a good mouse score without keys. */
  function KeyContribution(req: VerifyRequest, sqrt: real -> real): real
  {
    if |req.keyEvents| > 0 then KeystrokeScore(req.keyEvents) * 0.4
    else if MouseContribution(req, sqrt) > 0.5 then 0.2
    else 0.0
  }

  /** What `calculate_score` returns. */
  function Score(req: VerifyRequest, sqrt: real -> real): (r: real)
    ensures 0.0 <= r <= 1.0
    ensures |req.mouseEvents| < 5 && |req.keyEvents| == 0 ==> r == 0.0
  {
    if |req.mouseEvents| < 5 && |req.keyEvents| == 0 then 0.0
    else
      var total := MouseContribution(req, sqrt) + KeyContribution(req, sqrt);
      if total > 1.0 then 1.0 else total
  }

  method CalculateScore(req: VerifyRequest, sqrt: real -> real) returns (score: real)
    ensures score == Score(req, sqrt)
  {
    score := 0.0;
    if |req.mouseEvents| < 5 && |req.keyEvents| == 0 {
      return 0.0;
    }
    if |req.mouseEvents| > 10 {
      var linearityScore := AnalyzeMouseLinearity(req.mouseEvents, sqrt);
      var speedScore := AnalyzeMouseSpeed(req.mouseEvents, sqrt);
      score := score + linearityScore * 0.4;
      score := score + speedScore * 0.2;
    } else if |req.mouseEvents| > 0 {
      score := score + 0.1;
    }
    if |req.keyEvents| > 0 {
      var keystrokeScore := AnalyzeKeystrokes(req.keyEvents);
      score := score + keystrokeScore * 0.4;
    } else if score > 0.5 {
      score := score + 0.2;
    }
    if score > 1.0 {
      score := 1.0;
    }
  }

  /** Without key events the 0.2 bonus is paid only on top of a perfect mouse score of 0.6. */
  lemma BonusOnlyForPerfectMouse(req: VerifyRequest, sqrt: real -> real)
    requires |req.keyEvents| == 0 && |req.mouseEvents| >= 5
    ensures Score(req, sqrt) ==
            if MouseContribution(req, sqrt) > 0.5 then MouseContribution(req, sqrt) + 0.2
            else MouseContribution(req, sqrt)
    ensures MouseContribution(req, sqrt) > 0.5 <==>
            |req.mouseEvents| > 10 && LinearityScore(req.mouseEvents, sqrt) == 1.0 && SpeedScore(req.mouseEvents, sqrt) == 1.0
  {
  }

  /** Ten or fewer pointer samples cap the score at 0.1 + 0.4; a straight path caps it at 0.2 + 0.4. */
  lemma ScoreCeilings(req: VerifyRequest, sqrt: real -> real)
    ensures |req.mouseEvents| <= 10 ==> Score(req, sqrt) <= 0.5
    ensures |req.mouseEvents| > 10 && LinearityScore(req.mouseEvents, sqrt) == 0.0 ==> Score(req, sqrt) <= 0.6
  {
  }

  /**
   * Exactly when a request scores above the threshold: more than ten
   * samples on a path that is not straight, and either no keys and a
   * natural speed, or keys with a human rhythm, or keys with a neutral
   * rhythm and a natural speed.
   */
  lemma PassCondition(req: VerifyRequest, sqrt: real -> real)
    ensures Score(req, sqrt) > PassThreshold <==>
            && |req.mouseEvents| > 10
            && LinearityScore(req.mouseEvents, sqrt) == 1.0
            && (if |req.keyEvents| == 0 then SpeedScore(req.mouseEvents, sqrt) == 1.0
                else KeystrokeScore(req.keyEvents) == 1.0
                     || (KeystrokeScore(req.keyEvents) == 0.5 && SpeedScore(req.mouseEvents, sqrt) == 1.0))
  {
    ScoreCeilings(req, sqrt);
  }

  // ---------------------------------------------------------------------
  // Verdict (server/src/main.rs:21-38)

  /** No 'V' after the first character of the success message's pieces. */
  lemma SuccessPiecesLackV()
    ensures "Verification successful."[1..] == "erification successful."
    ensures 'V' !in "erification successful."
    ensures 'V' !in " Human behavior" && 'V' !in " pattern confirmed."
  {
  }

  /** 'V' opens the success message and does not occur again. */
  lemma SuccessMessageShape()
    ensures |SuccessMessage| > 13 && SuccessMessage[0] == 'V' && SuccessMessage[13] == 's'
    ensures 'V' !in SuccessMessage[1..]
  {
    var a, b, c := "Verification successful.", " Human behavior", " pattern confirmed.";
    assert SuccessMessage == a + b + c;
    TailOfConcat(a, b, c);
    SuccessPiecesLackV();
    assert a[13] == 's';
  }

  lemma SuccessMessageFacts()
    ensures Contains(SuccessMessage, "Verification successful")
    ensures !Contains(SuccessMessage, "Verification failed")
  {
    assert "Verification successful." == "Verification successful" + ".";
    PrefixContained("Verification successful", "." + " Human behavior" + " pattern confirmed.");
    SuccessMessageShape();
    UniqueHead(SuccessMessage, "Verification failed");
  }

  /** The failure message's pieces have no 's'. */
  lemma FailurePiecesLackS()
    ensures 's' !in "Verification failed." && 's' !in " Automated behavior" && 's' !in " pattern detected."
  {
  }

  lemma FailureMessageFacts()
    ensures Contains(FailureMessage, "Verification failed")
    ensures !Contains(FailureMessage, "Verification successful")
  {
    PrefixContained("Verification failed", "." + " Automated behavior" + " pattern detected.");
    FailurePiecesLackS();
    MissingChar(FailureMessage, "Verification successful", 13);
  }

  /** The response for a score: passed above 0.7, with the matching message. */
  function Respond(score: real): (r: VerifyResponse)
    ensures r.score == score
    ensures r.passed <==> score > PassThreshold
    ensures Contains(r.message, "Verification successful") <==> r.passed
    ensures Contains(r.message, "Verification failed") <==> !r.passed
  {
    SuccessMessageFacts();
    FailureMessageFacts();
    var passed := score > PassThreshold;
    VerifyResponse(score, passed, if passed then SuccessMessage else FailureMessage)
  }

  /** The `/verify` handler. */
  method Verify(req: VerifyRequest, sqrt: real -> real) returns (resp: VerifyResponse)
    ensures resp == Respond(Score(req, sqrt))
    ensures resp.passed ==> |req.mouseEvents| > 10 && LinearityScore(req.mouseEvents, sqrt) == 1.0
  {
    var score := CalculateScore(req, sqrt);
    PassCondition(req, sqrt);
    resp := Respond(score);
  }
}
