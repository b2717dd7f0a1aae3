# OpenSentinel in Dafny

OpenSentinel is a privacy-first bot check. A script in the page records pointer
movements and key presses into two small buffers. It posts them to a
verification server, which scores how human they look and answers with a
verdict. This project models that core and proves properties of it:

- **Scoring** (`scoring.dfy`) is the current server's scoring. It has three analysers:
  - pointer linearity: the mean distance from the start-to-end line;
  - pointer speed: the variance and mean of segment speeds;
  - keystroke rhythm: the mean and variance of inter-key intervals.

  Their weighted combination goes with the 0.7 pass threshold and the two verdict messages. The analysers are methods with loops and `calculate_score` is a method that accumulates the score step by step; each is proved equal to a specification function. The properties are lemmas on those functions.
- **PocScoring** (`poc_scoring.dfy`) is the older proof-of-concept server. It counts
  samples, measures duration and counts keys, with a 0.5 threshold.
- **Sensor** (`sensor.dfy`) is the browser sensor. It is a class with two bounded
  first-in-first-out buffers of 50 entries, a one-time `init`, and `verify`. `verify`
  sends the buffers and turns a transport failure into `passed: false`.
- **Site** (`site.dfy`) is the project page's script: the guided tutorial's step
  machine (start, next, previous, auto-play tick, resize, end), the mobile menu
  toggles, and the navbar scroll threshold. The DOM is abstracted: `hasTarget(k)`
  says whether step `k`'s element exists.
- **Harness** (`harness.dfy`) is the end-to-end test script:
  - the scripted bot and human pointer paths and the human typing;
  - the 60-probe server start-up loop;
  - the two scenarios' verdict checks;
  - the build, start, test and stop sequence of `main`.

  Lemmas there connect the script to the servers: a request whose pointer samples are exactly the bot path fails on the current server, and a scenario's check agrees with the server's verdict.
- **Text**, **Protocol** and **Wrappers** (`text.dfy`, `protocol.dfy`) hold the shared pieces:
  - substring containment, which is Python's `in` on strings;
  - the request and response records;
  - `Option`, for absent JavaScript and Python values.

Numbers from Rust `f64` and JavaScript are modelled as `real`. The square root is
a parameter `sqrt: real -> real` that nothing is assumed about, except
`sqrt(0.0) == 0.0` in the one lemma that needs it. Three behaviours of the test
script are modelled as the code has them:

- `main` never terminates the launched server when a probe raises anything other
  than `URLError` or `ConnectionResetError` (tests/integration_tests.py:24-31, 134):
  the exception escapes `start_server` and `main` (`Harness.UncaughtProbeLeavesServer`).
- Both scenarios run on one browser page (tests/integration_tests.py:141-145).
- A probe that answers with a status other than 200 and raises nothing is
  retried at once, without the one-second sleep (tests/integration_tests.py:26-31).

## Model

| member | source | states |
|---|---|---|
| Scoring.SquaredDeviationsNonNegative | server/src/main.rs:151 | the sum of squared deviations of the speeds is never negative |
| Scoring.VarianceNonNegative | server/src/main.rs:186 | the interval and speed variance is never negative |
| Scoring.ConstantSequence | server/src/main.rs:178-186 | a sequence of equal values has that value as mean and variance 0 |
| Scoring.LinearityScore | server/src/main.rs:86-119 | the linearity verdict is 0 (bot) or 1 (human) |
| Scoring.AnalyzeMouseLinearity | server/src/main.rs:82-120 | the deviation loop returns exactly the linearity verdict of the samples |
| Scoring.LinearityFewPoints | server/src/main.rs:86-88 | fewer than three samples are judged human (1.0) |
| Scoring.LinearityClosedPath | server/src/main.rs:98-102 | a path that ends where it starts has a zero-length line and is judged a bot |
| Scoring.OnLineThrough | server/src/main.rs:93-97 | a point satisfies the line equation `ax + by + c = 0` through start and end exactly when it is collinear with them |
| Scoring.ZeroDeviation | server/src/main.rs:104-109 | points all on the line accumulate zero total deviation |
| Scoring.LinearityStraightPath | server/src/main.rs:104-116 | any path of three or more samples on one straight line is judged a bot, whatever the timestamps |
| Scoring.Speeds | server/src/main.rs:130-144 | at most one speed per consecutive pair of samples, as only pairs with positive time difference are kept |
| Scoring.SpeedScore | server/src/main.rs:146-163 | the speed verdict is 1 exactly when some speed was measured, its variance is at least 0.0001 and its mean at most 5; otherwise 0 |
| Scoring.AnalyzeMouseSpeed | server/src/main.rs:122-164 | the windowed loop returns exactly the speed verdict |
| Scoring.NoSpeedsWhenTimeStands | server/src/main.rs:136-143 | when no timestamp increases, no speed is recorded |
| Scoring.SpeedWithoutMotionTime | server/src/main.rs:146 | such samples are judged a bot (count 0) |
| Scoring.SpeedConstant | server/src/main.rs:150-156 | constant speed is judged a bot |
| Scoring.SpeedSuperhuman | server/src/main.rs:158-161 | a mean speed above 5 px/ms is judged a bot |
| Scoring.UniformSpeeds | server/src/main.rs:134-140 | equal steps in equal time give every segment the same speed |
| Scoring.SpeedUniformMotion | server/src/main.rs:150-156 | scripted uniform motion is judged a bot |
| Scoring.Intervals | server/src/main.rs:171-176 | one interval per consecutive pair of key presses |
| Scoring.IntervalAt | server/src/main.rs:172-175 | interval `i` is the time from press `i` to press `i + 1` |
| Scoring.KeystrokeScore | server/src/main.rs:166-194 | 0.5 exactly for fewer than two presses; 1 exactly when the mean interval is at least 50 and the variance at least 10; 0 otherwise |
| Scoring.AnalyzeKeystrokes | server/src/main.rs:166-194 | the interval loop returns exactly the keystroke verdict |
| Scoring.IntervalsTelescope | server/src/main.rs:171-178 | the intervals add up to the time from the first to the last press |
| Scoring.KeystrokeMeanIsSpan | server/src/main.rs:178 | the mean interval is that span over the number of gaps |
| Scoring.KeystrokeTooFast | server/src/main.rs:180-183 | typing faster than 50 ms per key on average is judged a bot |
| Scoring.KeystrokeEvenRhythm | server/src/main.rs:185-191 | perfectly even typing is judged a bot |
| Scoring.Score | server/src/main.rs:40-80 | the score lies in [0, 1] and is 0 for fewer than five pointer samples and no keys |
| Scoring.CalculateScore | server/src/main.rs:40-80 | the step-by-step accumulation returns exactly the score |
| Scoring.BonusOnlyForPerfectMouse | server/src/main.rs:64-72 | without keys, the 0.2 bonus is added exactly when the pointer part exceeds 0.5, which happens exactly for more than ten samples judged human by both pointer analysers |
| Scoring.ScoreCeilings | server/src/main.rs:48-72 | ten or fewer samples cap the score at 0.5, and a straight path caps it at 0.6 |
| Scoring.PassCondition | server/src/main.rs:25 | a request passes exactly when it has more than ten non-straight samples and either good speed (no keys, or neutral keys) or human typing |
| Scoring.SuccessMessageShape | server/src/main.rs:28 | the success message starts with its only 'V', and has an 's' at position 13 |
| Scoring.SuccessMessageFacts | server/src/main.rs:28-30 | the success message contains "Verification successful" and not "Verification failed" |
| Scoring.FailureMessageFacts | server/src/main.rs:30 | the failure message contains "Verification failed" and not "Verification successful" |
| Scoring.Respond | server/src/main.rs:24-37 | the response echoes the score, passes exactly above 0.7, and its message names the verdict |
| Scoring.Verify | server/src/main.rs:21-38 | the handler answers for the request's score; a pass implies more than ten samples judged non-linear |
| PocScoring.CalculateScore | OpenSentinel/server/src/main.rs:40-83 | the early return and the cap never bite; the score is the sum of the sample-count, duration and key-count terms |
| PocScoring.Score | OpenSentinel/server/src/main.rs:40-83 | the only reachable scores are 0, 0.2, 0.4, 0.6 and 0.8, and an empty request scores 0 |
| PocScoring.PassNeedsSamples | OpenSentinel/server/src/main.rs:25 | a pass needs more than ten pointer samples plus either more than a second of movement or more than two keys, and conversely |
| PocScoring.KeysOnlyFail | OpenSentinel/server/src/main.rs:51-75 | key presses alone score at most 0.2 and fail |
| PocScoring.SuccessMessageShape | OpenSentinel/server/src/main.rs:28 | the success message starts with its only 'V', and has an 's' at position 13 |
| PocScoring.SuccessMessageFacts | OpenSentinel/server/src/main.rs:28-30 | the success message contains "Verification successful" and not "Verification failed" |
| PocScoring.FailureMessageFacts | OpenSentinel/server/src/main.rs:30 | the failure message contains "Verification failed" and not "Verification successful" |
| PocScoring.Respond | OpenSentinel/server/src/main.rs:24-37 | the response echoes the score, passes exactly above 0.5, and its message names the verdict |
| PocScoring.Verify | OpenSentinel/server/src/main.rs:21-38 | the handler answers for the request's score; a pass implies more than ten samples |
| Sensor.Push | client/src/sensor.js:27-37 | one recording grows the buffer by one below 50 and keeps its length at 50; the new entry is last and the rest is the old buffer minus at most its oldest entry |
| Sensor.Window | client/src/sensor.js:6 | the window has at most 50 entries |
| Sensor.PushIsWindow | client/src/sensor.js:28-29 | a recording on a buffer within capacity leaves the last 50 entries recorded |
| Sensor.PushAllWindow | client/src/sensor.js:27-38 | after any number of recordings a buffer holds exactly the last 50 events it saw, oldest first |
| Sensor.ConfiguredEndpoint | client/src/sensor.js:11 | the endpoint changes only to a given non-empty configured endpoint, and always does when one is given |
| Sensor.ToResult | client/src/sensor.js:47-59 | a delivered reply is passed through; a rejected fetch gives `passed: false` with the error |
| Sensor.Sensor.constructor | client/src/sensor.js:2-7 | endpoint "/verify", empty buffers, not initialised |
| Sensor.Sensor.Init | client/src/sensor.js:9-16 | a repeated call changes nothing; the first sets `initialized`, registers the listeners once and applies the configured endpoint; the buffers are untouched |
| Sensor.Sensor.StartListening | client/src/sensor.js:18-25 | one more listener pair, nothing else changed |
| Sensor.Sensor.RecordMouse | client/src/sensor.js:27-30 | the pointer buffer takes one bounded push of `[x, y, now]`; the key buffer and the rest of the state are unchanged |
| Sensor.Sensor.RecordKey | client/src/sensor.js:32-38 | the key buffer takes one bounded push of `[code, now]`; the pointer buffer and the rest are unchanged |
| Sensor.Sensor.Verify | client/src/sensor.js:40-60 | the payload carries exactly the current buffers and the user agent, and a transport failure yields `passed: false` |
| Site.FirstTarget | docs/assets/js/main.js:197-200 | the first step from `k` on whose target exists, or 7, with every step skipped before it missing |
| Site.ShowFindsTarget | docs/assets/js/main.js:178-233 | showing the current step skips missing targets and lands on the first present one, or ends the tutorial at index 7 |
| Site.ShowProgress | docs/assets/js/main.js:178-200 | `showStep` never lowers the index and never turns autoplay, overlay or controls on; a negative index shows step 0; an index of 7 or more ends the tutorial and leaves the index unwritten |
| Site.NextProgress | docs/assets/js/main.js:226-233 | `nextStep` strictly raises the index and turns nothing on, so skipping terminates |
| Site.NextStepAdvances | docs/assets/js/main.js:226-233 | `nextStep` moves to the next step when its target exists, else on to the next present one |
| Site.NextStepEnds | docs/assets/js/main.js:167-171 | reaching step 7 ends the tutorial: not playing, overlay and controls inactive |
| Site.StartFacts | docs/assets/js/main.js:140-158 | start plays from the first present step with overlay and controls active, or ends at once when no target exists |
| Site.PrevFacts | docs/assets/js/main.js:235-240 | `prevStep` stops autoplay so later ticks change nothing, never leaves the index below 0, and steps back by one onto a present target |
| Site.TickGated | docs/assets/js/main.js:153-157 | the autoplay tick advances only while playing |
| Site.ReachableIndex | docs/assets/js/main.js:140-247 | from a non-negative index every operation keeps the index non-negative, and none but start turns autoplay on: next, resize and tick keep a stopped tutorial stopped, and previous always stops it |
| Site.Tutorial.constructor | docs/assets/js/main.js:94-96 | index 0, not playing, nothing shown |
| Site.Tutorial.Start | docs/assets/js/main.js:140-158 | the state becomes that of `startTutorial` |
| Site.Tutorial.StopAutoPlay | docs/assets/js/main.js:160-165 | only `isPlaying` is cleared |
| Site.Tutorial.EndTutorial | docs/assets/js/main.js:167-176 | autoplay stopped, overlay, controls and highlight hidden |
| Site.Tutorial.ShowStep | docs/assets/js/main.js:178-224 | the mutually recursive show/next pair terminates with the state `showStep` specifies |
| Site.Tutorial.NextStep | docs/assets/js/main.js:226-233 | the state becomes that of `nextStep` |
| Site.Tutorial.PrevStep | docs/assets/js/main.js:235-240 | the state becomes that of `prevStep` |
| Site.Tutorial.Tick | docs/assets/js/main.js:153-157 | one autoplay firing |
| Site.Tutorial.Resize | docs/assets/js/main.js:242-247 | the current step is re-shown only while the overlay is active |
| Site.MenuFlagsTogether | docs/assets/js/main.js:74-86 | hamburger and menu classes that start equal stay equal under any clicks |
| Site.MenuOpenParity | docs/assets/js/main.js:75-84 | from a fresh page the menu is open exactly after an odd number of hamburger clicks since the last link click |
| Site.NavbarFor | docs/assets/js/main.js:42-50 | the navbar is opaque exactly when `scrollY > 50`, transparent otherwise |
| Site.NavbarMonotone | docs/assets/js/main.js:43-49 | scrolling further down never turns an opaque navbar transparent |
| Site.PageChrome.constructor | docs/assets/js/main.js:69-74 | both classes inactive, no inline navbar style |
| Site.PageChrome.ClickHamburger | docs/assets/js/main.js:75-78 | toggles both classes when the handlers are attached, else nothing |
| Site.PageChrome.ClickMobileLink | docs/assets/js/main.js:80-85 | clears both classes when the handlers are attached, else nothing |
| Site.PageChrome.Scroll | docs/assets/js/main.js:42-50 | sets the navbar style for the offset; the menu is unchanged |
| Harness.BotMovement | tests/integration_tests.py:47-55 | the loop produces exactly the bot path |
| Harness.BotPathFacts | tests/integration_tests.py:47-55 | 21 points from (100, 100) to (500, 500), all on that line, with equal (20, 20) steps and equal pauses |
| Harness.BotPathFailsServer | tests/integration_tests.py:45-79 | a request whose pointer samples are exactly the bot path fails on the current server regardless of timestamps and keys, and the message contains what the bot scenario expects |
| Harness.HumanMovement | tests/integration_tests.py:88-103 | the loop produces exactly the human path for the given draws |
| Harness.HumanPathFacts | tests/integration_tests.py:90-103 | 51 points; with draws in range each y is within 5 of the straight interpolation, and x lies between 5 below it and 55 above it |
| Harness.HumanTyping | tests/integration_tests.py:107-111 | the loop types the text with the given pauses |
| Harness.TypingFacts | tests/integration_tests.py:108-111 | every character once, in order; twelve for "I am a human" |
| Harness.HumanTypingPace | tests/integration_tests.py:105-111 | key presses at least 50 ms apart pass the server's mean-interval test |
| Harness.ScenarioPasses | tests/integration_tests.py:74-78 | a scenario passes exactly when the result text exists and contains the expected phrase |
| Harness.ChecksMatchVerdicts | tests/integration_tests.py:122-126 | shown a server's message, the bot check passes exactly on rejection and the human check exactly on acceptance, for both servers |
| Harness.ReadinessFrom | tests/integration_tests.py:24-31 | the probe loop stops at the first 200 or uncaught exception, retries everything else, and gives up exactly when all 60 probes were retried |
| Harness.ReadinessFacts | tests/integration_tests.py:24-38 | at most 60 probes; the process is returned on the first 200 |
| Harness.ServerProcess.constructor | tests/integration_tests.py:16-22 | a launched, running process not yet terminated |
| Harness.ServerProcess.Terminate | tests/integration_tests.py:34 | the process stops and one more termination is counted |
| Harness.ServerProcess.Exit | tests/integration_tests.py:159 | the process stops by itself, and no termination is counted |
| Harness.ServerProcess.Poll | tests/integration_tests.py:159 | reports whether the process still runs |
| Harness.StartServer | tests/integration_tests.py:13-38 | the outcome is the probe loop's; the process is terminated once exactly when it gave up |
| Harness.RunSession | tests/integration_tests.py:129-162 | `main` produces exactly the session the sequence specifies; the launched process exists exactly when the build succeeds, is terminated at most once, and is terminated exactly when the trace shows a termination |
| Harness.SessionFacts | tests/integration_tests.py:129-162 | the server is terminated at most once and, once started, always unless it exited itself; a failed build launches nothing; no scenario runs without a ready server; exit 0 exactly when both scenarios pass |
| Harness.UncaughtProbeLeavesServer | tests/integration_tests.py:24-31 | an uncaught probe exception exits 1 with the launched server never terminated |

## Left out

- Floating point: `f64` rounding, NaN and infinities are not modelled; numbers are exact reals.
- The square root: it is a parameter, so its rounding and its actual values are not modelled.
- The actix server setup, routing, static files, logging and serde JSON
  decoding in both servers (`server/src/main.rs:196-215`,
  `OpenSentinel/server/src/main.rs:85-104`). These are framework glue. A
  malformed body never reaches `verify`.
- Sensor.Sensor.Verify: `fetch` and `response.json()` are one abstract
  function. The model does not capture that the reply body is arbitrary JSON.
- Sensor.ConfiguredEndpoint: only string endpoints are modelled; a truthy endpoint of another kind (a number, a `URL` object) is also accepted by `client/src/sensor.js:11` and handed to `fetch`, which the model does not capture.
- Sensor.Sensor.Init: the `console.log` after initialising and the `console.error` on a failed verification (`client/src/sensor.js:15`, `57`) are console output and are not modelled.
- Sensor.Sensor.StartListening: registering DOM listeners is modelled only as a count. `Date.now` and the event fields are parameters.
- Site.ShowStep: some DOM work is not modelled:
  - the highlight geometry, scrolling into view and the caption text;
  - fullscreen;
  - the stop button's label.

  The hamburger step's fallback to the navigation links is folded into `hasTarget`. A missing hamburger element would make `getComputedStyle` throw; that is not modelled.
- Site.Tutorial.Tick: the `setInterval` timer and its handle are not modelled, and neither is the `clearInterval` in `stopAutoPlay`. Only the callback's body is modelled; since it is gated by `isPlaying`, no timer can advance a stopped tutorial.
- Site.Tutorial.Start: a repeated start while the tutorial plays stores a new interval without clearing the old one, and `stopAutoPlay` clears only the newest, so the leaked timer makes a playing tutorial advance twice per period; the model has a single tick and does not capture this.
- Site.PageChrome.Scroll: on a page without a `.navbar` element the scroll handler throws on every scroll (`docs/assets/js/main.js:41-44`); the model always has a navbar and always sets its style.
- The tilt effect, the glitch text randomisation and the year stamp in the page script are not modelled. They are floating point, timers and randomness with no state machine.
- Harness.HumanMovement: `random.randint`, `random.uniform` and `math.sin` are parameters (`HumanDraw`). The bow's range [0, 50] is part of `DrawInRange`, not proved.
- Harness.BotMovement: the bot scenario's typing is a single driver call (`page.keyboard.type` with no delay) and is not modelled. The pointer moves are not turned into the sensor's timestamps, and the pointer move to the button that the browser driver's `page.click` makes before clicking is not modelled, so the sensor's 22nd sample is not part of the bot path.
- Harness.RunSession: several parts are abstracted into the `Environment`:
  - Playwright, subprocess and urllib;
  - the sleeps, and printing the captured process output;
  - the results of the selector waits.

  Any exception inside a scenario before its check counts as a missing result text.
- The deployment and layout screenshot scripts (`scripts/verify_deployment.py`,
  `scripts/verify_layout.py`, `verify_logo.py`) are not part of this model. They are browser automation with no logic of their own.
