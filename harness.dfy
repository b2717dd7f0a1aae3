/**
 * The end-to-end test script (tests/integration_tests.py): the scripted
 * bot and human pointer paths and typing, the server start-up probe loop,
 * the verdict checks of the two scenarios, and the build / start / test /
 * stop sequence of `main`. The browser, the subprocess, HTTP, the clock
 * and the random draws are parameters.
 */
module Harness {
  import opened Wrappers
  import opened Text
  import opened Protocol
  import Scoring
  import PocScoring

  /** One `page.mouse.move(x, y)` followed by a pause of `pause` seconds. */
  datatype Move = Move(x: real, y: real, pause: real)

  // ---------------------------------------------------------------------
  // The bot scenario's path: 20 equal steps from (100, 100) to (500, 500).

  const BotSteps: nat := 20

  function BotMove(i: int): Move
  {
    var f := (i as real) / (BotSteps as real);
    Move(100.0 + 400.0 * f, 100.0 + 400.0 * f, 0.01)
  }

  function BotPath(): seq<Move>
  {
    seq(BotSteps + 1, i => BotMove(i))
  }

  /** The bot path loop. */
  method BotMovement() returns (moves: seq<Move>)
    ensures moves == BotPath()
  {
    moves := [];
    for i := 0 to BotSteps + 1
      invariant |moves| == i
      invariant forall j :: 0 <= j < i ==> moves[j] == BotMove(j)
    {
      var x := 100.0 + (500.0 - 100.0) * ((i as real) / (BotSteps as real));
      var y := 100.0 + (500.0 - 100.0) * ((i as real) / (BotSteps as real));
      moves := moves + [Move(x, y, 0.01)];
    }
  }

  /**
   * The bot path has 21 points from (100, 100) to (500, 500), all on the
   * line between them, with the same (20, 20) step and the same pause
   * between any two.
   */
  lemma BotPathFacts()
    ensures |BotPath()| == 21
    ensures BotPath()[0].x == 100.0 && BotPath()[0].y == 100.0
    ensures BotPath()[20].x == 500.0 && BotPath()[20].y == 500.0
    ensures forall i :: 0 <= i < 21 ==> BotPath()[i].x == BotPath()[i].y
    ensures forall i :: 0 < i < 21 ==>
              BotPath()[i].x - BotPath()[i - 1].x == 20.0 && BotPath()[i].y - BotPath()[i - 1].y == 20.0
    ensures forall i :: 0 <= i < 21 ==> BotPath()[i].pause == 0.01
  {
    forall i | 0 < i < 21
      ensures BotPath()[i].x - BotPath()[i - 1].x == 20.0
    {
      assert BotPath()[i].x == 100.0 + 20.0 * (i as real);
      assert BotPath()[i - 1].x == 100.0 + 20.0 * ((i - 1) as real);
    }
  }

  /**
   * A request whose 21 pointer samples sit on the bot path fails on the
   * server whatever the timestamps and key presses, and its message
   * contains the text the bot scenario waits for.
   */
  lemma BotPathFailsServer(req: VerifyRequest, sqrt: real -> real)
    requires |req.mouseEvents| == |BotPath()|
    requires forall i :: 0 <= i < |BotPath()| ==>
               req.mouseEvents[i].x == BotPath()[i].x && req.mouseEvents[i].y == BotPath()[i].y
    ensures !Scoring.Respond(Scoring.Score(req, sqrt)).passed
    ensures ScenarioPasses(BotExpectation, Some(Scoring.Respond(Scoring.Score(req, sqrt)).message))
  {
    BotPathFacts();
    var m := req.mouseEvents;
    forall i | 0 <= i < |m|
      ensures Scoring.Collinear(m[0], m[|m| - 1], m[i])
    {
      assert m[i].x == m[i].y;
    }
    Scoring.LinearityStraightPath(m, sqrt);
    Scoring.ScoreCeilings(req, sqrt);
  }

  // ---------------------------------------------------------------------
  // The human scenario's path: 50 noisy steps along a bowed curve.

  const HumanSteps: nat := 50

  /**
   * One iteration's random draws: the integer noise in x and y, the bow
   * `sin(t * pi) * 50` (not computed here) and the pause in seconds.
   */
  datatype HumanDraw = HumanDraw(noiseX: int, noiseY: int, arc: real, pause: real)

  /** The ranges `randint(-5, 5)`, `sin` on [0, pi] and `uniform(0.01, 0.05)` draw from. */
  predicate DrawInRange(d: HumanDraw)
  {
    -5 <= d.noiseX <= 5 && -5 <= d.noiseY <= 5 && 0.0 <= d.arc <= 50.0 && 0.01 <= d.pause <= 0.05
  }

  /** The straight interpolation from 100 to 500 at step `i` of 50. */
  function Lerp(i: int): real
  {
    100.0 + 400.0 * ((i as real) / (HumanSteps as real))
  }

  function HumanMove(i: int, d: HumanDraw): Move
  {
    Move(Lerp(i) + d.noiseX as real + d.arc, Lerp(i) + d.noiseY as real, d.pause)
  }

  function HumanPath(draws: nat -> HumanDraw): seq<Move>
  {
    seq(HumanSteps + 1, i requires 0 <= i => HumanMove(i, draws(i)))
  }

  /** The human path loop; `draws(i)` stands for iteration `i`'s random draws. */
  method HumanMovement(draws: nat -> HumanDraw) returns (moves: seq<Move>)
    ensures moves == HumanPath(draws)
  {
    moves := [];
    for i := 0 to HumanSteps + 1
      invariant |moves| == i
      invariant forall j :: 0 <= j < i ==> moves[j] == HumanMove(j, draws(j))
    {
      var d := draws(i);
      var t := (i as real) / (HumanSteps as real);
      var x := 100.0 + (500.0 - 100.0) * t + d.noiseX as real + d.arc;
      var y := 100.0 + (500.0 - 100.0) * t + d.noiseY as real;
      moves := moves + [Move(x, y, d.pause)];
    }
  }

  /**
   * The human path has 51 points; with draws in range each y is within 5
   * of the straight interpolation, each x lies between 5 below it and 55
   * above it, and each pause is between 0.01 and 0.05 seconds.
   */
  lemma HumanPathFacts(draws: nat -> HumanDraw)
    ensures |HumanPath(draws)| == 51
    ensures forall i :: 0 <= i < 51 && DrawInRange(draws(i)) ==>
              && Lerp(i) - 5.0 <= HumanPath(draws)[i].y <= Lerp(i) + 5.0
              && Lerp(i) - 5.0 <= HumanPath(draws)[i].x <= Lerp(i) + 55.0
              && 0.01 <= HumanPath(draws)[i].pause <= 0.05
  {
  }

  /** One `page.keyboard.type(char)` followed by a pause of `pause` seconds. */
  datatype Keystroke = Keystroke(ch: char, pause: real)

  const HumanText: string := "I am a human"

  function TypingOf(text: string, pause: nat -> real): seq<Keystroke>
  {
    seq(|text|, i requires 0 <= i < |text| => Keystroke(text[i], pause(i)))
  }

  /** The human typing loop; `pause(i)` is the pause drawn after key `i`. */
  method HumanTyping(text: string, pause: nat -> real) returns (keys: seq<Keystroke>)
    ensures keys == TypingOf(text, pause)
  {
    keys := [];
    for i := 0 to |text|
      invariant |keys| == i
      invariant forall j :: 0 <= j < i ==> keys[j] == Keystroke(text[j], pause(j))
    {
      keys := keys + [Keystroke(text[i], pause(i))];
    }
  }

  /** The typing types every character of the text once, in order. */
  lemma TypingFacts(text: string, pause: nat -> real)
    ensures |TypingOf(text, pause)| == |text|
    ensures forall i :: 0 <= i < |text| ==> TypingOf(text, pause)[i].ch == text[i]
    ensures |TypingOf(HumanText, pause)| == 12
  {
  }

  /** If every gap between key presses is at least `gap`, so is the time they span per gap. */
  lemma {:induction false} SpanAtLeast(events: seq<KeyEvent>, gap: real)
    requires |events| >= 1
    requires forall i :: 0 < i < |events| ==> events[i].t - events[i - 1].t >= gap
    ensures events[|events| - 1].t - events[0].t >= gap * (|events| - 1) as real
  {
    if |events| > 1 {
      SpanAtLeast(events[..|events| - 1], gap);
    }
  }

  /**
   * Key presses at least 50 ms apart, as the human typing's pauses of at
   * least 0.05 s give, pass the server's mean-interval test.
   */
  lemma HumanTypingPace(events: seq<KeyEvent>)
    requires |events| >= 2
    requires forall i :: 0 < i < |events| ==> events[i].t - events[i - 1].t >= 50.0
    ensures Scoring.Mean(Scoring.Intervals(events)) >= 50.0
  {
    SpanAtLeast(events, 50.0);
    MeanFromSpan(events, 50.0);
  }

  /** A span of at least `gap` per interval gives a mean interval of at least `gap`. */
  lemma MeanFromSpan(events: seq<KeyEvent>, gap: real)
    requires |events| >= 2
    requires events[|events| - 1].t - events[0].t >= gap * (|events| - 1) as real
    ensures Scoring.Mean(Scoring.Intervals(events)) >= gap
  {
    Scoring.KeystrokeMeanIsSpan(events);
    QuotientAtLeast(events[|events| - 1].t - events[0].t, (|events| - 1) as real, gap);
  }

  lemma QuotientAtLeast(a: real, n: real, b: real)
    requires n > 0.0 && a >= b * n
    ensures a / n >= b
  {
    var q := a / n;
    assert q * n == a;
    if q < b {
      assert q * n < b * n;
    }
  }

  // ---------------------------------------------------------------------
  // Verdict checks.

  const BotExpectation: string := "Verification failed"
  const HumanExpectation: string := "Verification successful"

  /**
   * A scenario passes when the result text contains the expected phrase;
   * a missing text (`None`) makes the membership test raise, which fails
   * the scenario as well.
   */
  function ScenarioPasses(expected: string, resultText: Option<string>): (r: bool)
    ensures r ==> resultText.Some? && (exists i :: OccursAt(resultText.value, expected, i))
    ensures resultText.Some? && (exists i :: OccursAt(resultText.value, expected, i)) ==> r
  {
    match resultText
    case None => false
    case Some(text) =>
      ContainsAt(text, expected);
      Contains(text, expected)
  }

  /**
   * Shown the server's message, the bot scenario passes exactly when the
   * server rejects and the human scenario exactly when it accepts, for
   * both servers.
   */
  lemma ChecksMatchVerdicts(score: real)
    ensures ScenarioPasses(BotExpectation, Some(Scoring.Respond(score).message)) <==> !Scoring.Respond(score).passed
    ensures ScenarioPasses(HumanExpectation, Some(Scoring.Respond(score).message)) <==> Scoring.Respond(score).passed
    ensures ScenarioPasses(BotExpectation, Some(PocScoring.Respond(score).message)) <==> !PocScoring.Respond(score).passed
    ensures ScenarioPasses(HumanExpectation, Some(PocScoring.Respond(score).message)) <==> PocScoring.Respond(score).passed
  {
  }

  // ---------------------------------------------------------------------
  // Starting the server.

  const MaxProbes: nat := 60

  /** What one `urlopen` of the server's address does. */
  datatype Probe =
    | Answered(status: int)  // a response without an exception
    | UrlError               // `URLError`, including an HTTP error status
    | ConnectionReset        // `ConnectionResetError`
    | OtherError             // any other exception, which is not caught

  /** The probes the loop goes on after. */
  predicate Retried(p: Probe)
  {
    p.UrlError? || p.ConnectionReset? || (p.Answered? && p.status != 200)
  }

  datatype StartOutcome =
    | Started(probes: nat)   // the process is returned after this many probes
    | GaveUp                 // 60 probes without a 200; the process was terminated
    | Raised(probes: nat)    // an uncaught exception escaped on this probe

  /** The outcome of the probe loop from probe `k` on; `probe(k)` is probe `k`'s result. */
  function Readiness(probe: nat -> Probe, k: nat): StartOutcome
    requires k <= MaxProbes
    decreases MaxProbes - k
  {
    if k == MaxProbes then GaveUp
    else if probe(k) == Answered(200) then Started(k + 1)
    else if probe(k).OtherError? then Raised(k + 1)
    else Readiness(probe, k + 1)
  }

  /**
   * From probe `k` on, the loop stops at the first probe answered with 200
   * or the first uncaught exception, retrying every other probe, and gives
   * up after probe 59 exactly when every remaining probe was retried.
   */
  lemma {:induction false} ReadinessFrom(probe: nat -> Probe, k: nat)
    requires k <= MaxProbes
    ensures var o := Readiness(probe, k);
            && (o.Started? ==> k < o.probes <= MaxProbes && probe(o.probes - 1) == Answered(200))
            && (o.Raised? ==> k < o.probes <= MaxProbes && probe(o.probes - 1).OtherError?)
            && ((o.Started? || o.Raised?) ==> forall j :: k <= j < o.probes - 1 ==> Retried(probe(j)))
            && (o.GaveUp? <==> forall j :: k <= j < MaxProbes ==> Retried(probe(j)))
    decreases MaxProbes - k
  {
    if k < MaxProbes && probe(k) != Answered(200) && !probe(k).OtherError? {
      ReadinessFrom(probe, k + 1);
    }
  }

  /** `start_server` makes at most 60 probes and returns on the first 200. */
  lemma ReadinessFacts(probe: nat -> Probe)
    ensures var o := Readiness(probe, 0);
            && (o.Started? ==> 1 <= o.probes <= MaxProbes && probe(o.probes - 1) == Answered(200)
                               && forall j :: 0 <= j < o.probes - 1 ==> probe(j) != Answered(200))
            && (o.GaveUp? <==> forall j :: 0 <= j < MaxProbes ==> Retried(probe(j)))
            && (o.Raised? ==> 1 <= o.probes <= MaxProbes && probe(o.probes - 1).OtherError?)
  {
    ReadinessFrom(probe, 0);
  }

  /** The server subprocess as `main` sees it. */
  class ServerProcess {
    var running: bool
    /** How many times `terminate()` was called on it. */
    var terminations: nat

    constructor ()
      ensures running && terminations == 0
    {
      running := true;
      terminations := 0;
    }

    method Terminate()
      modifies this
      ensures !running && terminations == old(terminations) + 1
    {
      running := false;
      terminations := terminations + 1;
    }

    /** The server stops by itself. */
    method Exit()
      modifies this
      ensures !running && terminations == old(terminations)
    {
      running := false;
    }

    /** `poll() is None`. */
    method Poll() returns (alive: bool)
      ensures alive == running
    {
      alive := running;
    }
  }

  /**
   * `start_server`: launches the process and probes it up to 60 times; on
   * giving up it terminates the process.
   */
  method StartServer(probe: nat -> Probe) returns (outcome: StartOutcome, process: ServerProcess)
    ensures fresh(process)
    ensures outcome == Readiness(probe, 0)
    ensures process.running <==> !outcome.GaveUp?
    ensures process.terminations == if outcome.GaveUp? then 1 else 0
  {
    process := new ServerProcess();
    var k := 0;
    while k < MaxProbes
      invariant 0 <= k <= MaxProbes
      invariant Readiness(probe, k) == Readiness(probe, 0)
      invariant process.running && process.terminations == 0
    {
      var p := probe(k);
      if p == Answered(200) {
        outcome := Started(k + 1);
        return;
      }
      if p.OtherError? {
        outcome := Raised(k + 1);
        return;
      }
      k := k + 1;
    }
    process.Terminate();
    outcome := GaveUp;
  }

  // ---------------------------------------------------------------------
  // The session run by `main`.

  /** Everything outside the script that decides how a session goes. */
  datatype Environment = Environment(
    buildSucceeds: bool,        // `cargo build` exits 0
    probe: nat -> Probe,        // the start-up probes
    browserLaunches: bool,      // Playwright starts Chromium
    botText: Option<string>,    // the bot scenario's result text, None if the scenario raised first
    humanText: Option<string>,  // likewise for the human scenario
    serverExits: bool)          // the server has exited by itself when the tests are over

  datatype Step = Build | Launch | BotScenario | HumanScenario | Terminate | CloseBrowser

  datatype Session = Session(exitCode: int, trace: seq<Step>)

  /** The exit status and the observable steps of a session. */
  function SessionSpec(env: Environment): Session
  {
    if !env.buildSucceeds then Session(1, [Build])
    else match Readiness(env.probe, 0)
      case GaveUp => Session(1, [Build, Launch, Terminate])
      case Raised(_) => Session(1, [Build, Launch])
      case Started(_) =>
        var finalStop := if env.serverExits then [] else [Terminate];
        if !env.browserLaunches then Session(1, [Build, Launch] + finalStop)
        else if !ScenarioPasses(BotExpectation, env.botText) then
          Session(1, [Build, Launch, BotScenario, Terminate, CloseBrowser])
        else if !ScenarioPasses(HumanExpectation, env.humanText) then
          Session(1, [Build, Launch, BotScenario, HumanScenario, Terminate, CloseBrowser])
        else Session(0, [Build, Launch, BotScenario, HumanScenario, CloseBrowser] + finalStop)
  }

  /**
   * `main`. The launched process, when there is one, is returned too: it
   * has been terminated exactly when the trace shows a termination, and
   * never twice.
   */
  method RunSession(env: Environment) returns (session: Session, proc: Option<ServerProcess>)
    ensures session == SessionSpec(env)
    ensures proc.None? <==> !env.buildSucceeds
    ensures proc.Some? ==> fresh(proc.value)
    ensures proc.Some? ==> proc.value.terminations <= 1
    ensures proc.Some? ==> (proc.value.terminations == 1 <==> Terminate in session.trace)
  {
    var trace := [Build];
    if !env.buildSucceeds {
      session, proc := Session(1, trace), None;
      return;
    }
    var outcome, process := StartServer(env.probe);
    proc := Some(process);
    trace := trace + [Launch];
    if outcome.GaveUp? {
      session := Session(1, trace + [Terminate]);
      return;
    }
    if outcome.Raised? {
      session := Session(1, trace);
      return;
    }
    var exitCode := 0;
    if env.browserLaunches {
      trace := trace + [BotScenario];
      var failed := !ScenarioPasses(BotExpectation, env.botText);
      if !failed {
        trace := trace + [HumanScenario];
        failed := !ScenarioPasses(HumanExpectation, env.humanText);
      }
      if failed {
        process.Terminate();
        trace := trace + [Terminate];
        exitCode := 1;
      }
      trace := trace + [CloseBrowser];
    } else {
      exitCode := 1;
    }
    if env.serverExits && process.running {
      process.Exit();
    }
    var alive := process.Poll();
    if alive {
      process.Terminate();
      trace := trace + [Terminate];
    }
    session := Session(exitCode, trace);
  }

  /**
   * On every path the server is terminated at most once; once it has
   * started it is terminated unless it exited by itself; a failed build
   * launches nothing; no scenario runs unless the server answered 200;
   * and the exit status is 0 exactly when both scenarios passed.
   */
  lemma SessionFacts(env: Environment)
    ensures var s := SessionSpec(env);
            && multiset(s.trace)[Terminate] <= 1
            && s.trace[0] == Build
            && (!env.buildSucceeds ==> s.trace == [Build])
            && (Launch in s.trace <==> env.buildSucceeds)
            && (BotScenario in s.trace ==> env.buildSucceeds && Readiness(env.probe, 0).Started?)
            && (env.buildSucceeds && Readiness(env.probe, 0).Started? && !env.serverExits ==> Terminate in s.trace)
            && (s.exitCode == 0 || s.exitCode == 1)
            && (s.exitCode == 0 <==>
                  env.buildSucceeds && Readiness(env.probe, 0).Started? && env.browserLaunches
                  && ScenarioPasses(BotExpectation, env.botText)
                  && ScenarioPasses(HumanExpectation, env.humanText))
  {
  }

  /**
   * An exception other than the two retried ones escapes `start_server`
   * and `main`: the launched server is never terminated.
   */
  lemma UncaughtProbeLeavesServer(env: Environment)
    requires env.buildSucceeds && Readiness(env.probe, 0).Raised?
    ensures Launch in SessionSpec(env).trace && Terminate !in SessionSpec(env).trace
    ensures SessionSpec(env).exitCode == 1
  {
  }
}
