/**
 * The JSON body exchanged between the browser sensor and the verification
 * servers: the request carries the recorded pointer samples and key
 * presses, the response the score, the pass/fail verdict and a message.
 * Numbers that are `f64` in the servers and JavaScript numbers in the client
 * are `real` here.
 */
module Protocol {

  /** One pointer sample `[x, y, timestamp]`; the timestamp is in milliseconds. */
  datatype MouseEvent = MouseEvent(x: real, y: real, t: real)

  /** One key press `[code, timestamp]`. */
  datatype KeyEvent = KeyEvent(code: string, t: real)

  /** The body of `POST /verify`; a missing `user_agent` reads as "". */
  datatype VerifyRequest = VerifyRequest(
    mouseEvents: seq<MouseEvent>,
    keyEvents: seq<KeyEvent>,
    userAgent: string)

  /** The JSON answer of a server. */
  datatype VerifyResponse = VerifyResponse(score: real, passed: bool, message: string)
}
