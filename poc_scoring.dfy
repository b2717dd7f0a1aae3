/**
 * The older proof-of-concept verification server
 * (OpenSentinel/server/src/main.rs): a score built from the number of
 * pointer samples, the time they span and the number of key presses, with
 * the verdict at the 0.5 threshold.
 */
module PocScoring {
  import opened Text
  import opened Protocol

  const PassThreshold: real := 0.5
  const SuccessMessage: string := "Verification successful." + " Welcome, human."
  const FailureMessage: string := "Verification failed." + " Bot behavior detected."

  /** 0.4 for more than ten pointer samples. */
  function SampleCountTerm(req: VerifyRequest): real
  {
    if |req.mouseEvents| > 10 then 0.4 else 0.0
  }

  /** 0.2 when the pointer samples span more than 1000 ms. */
  function DurationTerm(req: VerifyRequest): real
  {
    var m := req.mouseEvents;
    if m != [] && m[|m| - 1].t - m[0].t > 1000.0 then 0.2 else 0.0
  }

  /** 0.2 for more than two key presses. */
  function KeyCountTerm(req: VerifyRequest): real
  {
    if |req.keyEvents| > 2 then 0.2 else 0.0
  }

  /**
   * `calculate_score`. Its early return for an empty request and its cap
   * at 1.0 never change the result: the score is the plain sum of the three
   * terms.
   */
  method CalculateScore(req: VerifyRequest) returns (score: real)
    ensures score == SampleCountTerm(req) + DurationTerm(req) + KeyCountTerm(req)
  {
    if |req.mouseEvents| == 0 && |req.keyEvents| == 0 {
      return 0.0;
    }
    score := 0.0;
    if |req.mouseEvents| > 0 {
      if |req.mouseEvents| > 10 {
        score := score + 0.4;
      }
      var start := req.mouseEvents[0].t;
      var end := req.mouseEvents[|req.mouseEvents| - 1].t;
      var duration := end - start;
      if duration > 1000.0 {
        score := score + 0.2;
      }
    }
    if |req.keyEvents| > 0 {
      if |req.keyEvents| > 2 {
        score := score + 0.2;
      }
    }
    if score > 1.0 {
      score := 1.0;
    }
  }

  /** The score of a request. */
  function Score(req: VerifyRequest): (r: real)
    ensures r == 0.0 || r == 0.2 || r == 0.4 || r == 0.6 || r == 0.8
    ensures |req.mouseEvents| == 0 && |req.keyEvents| == 0 ==> r == 0.0
  {
    SampleCountTerm(req) + DurationTerm(req) + KeyCountTerm(req)
  }

  /** Only more than ten pointer samples can lift the score above 0.5. */
  lemma PassNeedsSamples(req: VerifyRequest)
    ensures Score(req) > PassThreshold ==> |req.mouseEvents| > 10
    ensures Score(req) > PassThreshold <==>
            |req.mouseEvents| > 10 && (DurationTerm(req) > 0.0 || |req.keyEvents| > 2)
  {
  }

  /** A request with key presses only scores at most 0.2 and fails. */
  lemma KeysOnlyFail(req: VerifyRequest)
    requires req.mouseEvents == []
    ensures Score(req) <= 0.2 && Score(req) <= PassThreshold
  {
  }

  /** No 'V' after the first character of the success message's pieces. */
  lemma SuccessPiecesLackV()
    ensures "Verification successful."[1..] == "erification successful."
    ensures 'V' !in "erification successful." && 'V' !in " Welcome, human."
  {
  }

  /** 'V' opens the success message and does not occur again. */
  lemma SuccessMessageShape()
    ensures |SuccessMessage| > 13 && SuccessMessage[0] == 'V' && SuccessMessage[13] == 's'
    ensures 'V' !in SuccessMessage[1..]
  {
    var a, b := "Verification successful.", " Welcome, human.";
    assert SuccessMessage == a + b + [];
    TailOfConcat(a, b, []);
    SuccessPiecesLackV();
    assert a[13] == 's';
  }

  lemma SuccessMessageFacts()
    ensures Contains(SuccessMessage, "Verification successful")
    ensures !Contains(SuccessMessage, "Verification failed")
  {
    assert "Verification successful." == "Verification successful" + ".";
    PrefixContained("Verification successful", "." + " Welcome, human.");
    SuccessMessageShape();
    UniqueHead(SuccessMessage, "Verification failed");
  }

  /** The failure message's pieces have no 's'. */
  lemma FailurePiecesLackS()
    ensures 's' !in "Verification failed." && 's' !in " Bot behavior detected."
  {
  }

  lemma FailureMessageFacts()
    ensures Contains(FailureMessage, "Verification failed")
    ensures !Contains(FailureMessage, "Verification successful")
  {
    PrefixContained("Verification failed", "." + " Bot behavior detected.");
    FailurePiecesLackS();
    MissingChar(FailureMessage, "Verification successful", 13);
  }

  /** The response for a score: passed above 0.5, with the matching message. */
  function Respond(score: real): (r: VerifyResponse)
    ensures r.score == score
    ensures r.passed <==> score > PassThreshold
    ensures Contains(r.message, "Verification successful") <==> r.passed
    ensures Contains(r.message, "Verification failed") <==> !r.passed
  {
    SuccessMessageFacts();
    FailureMessageFacts();
    var passed := score > PassThreshold;
    VerifyResponse(score, passed, if passed then SuccessMessage else FailureMessage)
  }

  /** The `/verify` handler. */
  method Verify(req: VerifyRequest) returns (resp: VerifyResponse)
    ensures resp == Respond(Score(req))
    ensures resp.passed ==> |req.mouseEvents| > 10
  {
    var score := CalculateScore(req);
    PassNeedsSamples(req);
    resp := Respond(score);
  }
}
