/**
 * The browser sensor (client/src/sensor.js): two bounded first-in-first-out
 * buffers of pointer samples and key presses, an `init` that runs once,
 * and `verify`, which sends the buffers to the server.
 */
module Sensor {
  import opened Wrappers
  import opened Protocol

  /** The capacity of each buffer. */
  const MaxEvents: nat := 50

  /** The default verification endpoint. */
  const DefaultEndpoint: string := "/verify"

  /**
   * One recording step on a buffer: when the buffer already holds
   * `MaxEvents` entries the oldest is shifted out, then `x` is pushed.
   */
  function Push<T>(buf: seq<T>, x: T): (r: seq<T>)
    ensures |r| == if |buf| < MaxEvents then |buf| + 1 else |buf|
    ensures |buf| <= MaxEvents ==> |r| <= MaxEvents
    ensures r[|r| - 1] == x
    ensures r[..|r| - 1] == buf[|buf| + 1 - |r|..]
  {
    if |buf| >= MaxEvents then buf[1..] + [x] else buf + [x]
  }

  /** The last `MaxEvents` entries of `s` (all of `s` when it is shorter). */
  function Window<T>(s: seq<T>): (r: seq<T>)
    ensures |r| == if |s| <= MaxEvents then |s| else MaxEvents
  {
    if |s| <= MaxEvents then s else s[|s| - MaxEvents..]
  }

  /** Recording each of `xs` in order. */
  function PushAll<T>(buf: seq<T>, xs: seq<T>): seq<T>
    decreases |xs|
  {
    if xs == [] then buf else PushAll(Push(buf, xs[0]), xs[1..])
  }

  /** A push on a buffer within capacity keeps the window of everything recorded. */
  lemma PushIsWindow<T>(buf: seq<T>, x: T)
    requires |buf| <= MaxEvents
    ensures Push(buf, x) == Window(buf + [x])
  {
    if |buf| == MaxEvents {
      assert (buf + [x])[|buf + [x]| - MaxEvents..] == buf[1..] + [x];
    }
  }

  /** Taking the window early does not change a later window. */
  lemma WindowAppend<T>(s: seq<T>, t: seq<T>)
    ensures Window(Window(s) + t) == Window(s + t)
  {
    if |s| > MaxEvents {
      var w := s[|s| - MaxEvents..];
      if |w + t| > MaxEvents {
        assert (w + t)[|w + t| - MaxEvents..] == (s + t)[|s + t| - MaxEvents..];
      } else {
        assert w + t == (s + t)[|s + t| - MaxEvents..];
      }
    }
  }

  /**
   * However many events are recorded, a buffer that starts within capacity
   * holds exactly the last `MaxEvents` of everything it has seen, oldest
   * first.
   */
  lemma {:induction false} PushAllWindow<T>(buf: seq<T>, xs: seq<T>)
    requires |buf| <= MaxEvents
    ensures PushAll(buf, xs) == Window(buf + xs)
    decreases |xs|
  {
    if xs == [] {
      assert buf + xs == buf;
    } else {
      PushIsWindow(buf, xs[0]);
      PushAllWindow(Push(buf, xs[0]), xs[1..]);
      WindowAppend(buf + [xs[0]], xs[1..]);
      assert buf + [xs[0]] + xs[1..] == buf + xs;
    }
  }

  /** The second argument of `init`, when one is given. */
  datatype Config = Config(endpoint: Option<string>)

  /**
   * The endpoint after a first `init`: the configured one when the
   * configuration carries a non-empty endpoint (a truthy string),
   * otherwise the current one.
   */
  function ConfiguredEndpoint(current: string, config: Option<Config>): (r: string)
    ensures r != current ==> config.Some? && config.value.endpoint == Some(r) && r != ""
    ensures (config.Some? && config.value.endpoint.Some? && config.value.endpoint.value != "")
            ==> r == config.value.endpoint.value
    ensures (config.None? || config.value.endpoint.None? || config.value.endpoint == Some(""))
            ==> r == current
  {
    match config
    case Some(Config(Some(e))) => if e != "" then e else current
    case _ => current
  }

  /** The outcome of the abstract `fetch` and `response.json()` pair. */
  datatype FetchOutcome =
    | Delivered(body: VerifyResponse)
    | Rejected(error: string)

  /** What `verify` resolves to. */
  datatype ClientResult =
    | Answer(response: VerifyResponse)
    | Failure(passed: bool, error: string)

  /** A rejected fetch or an unparsable reply becomes `{passed: false, error}`. */
  function ToResult(outcome: FetchOutcome): (r: ClientResult)
    ensures outcome.Delivered? ==> r == Answer(outcome.body)
    ensures outcome.Rejected? ==> r == Failure(false, outcome.error)
    ensures r.Failure? <==> outcome.Rejected?
  {
    match outcome
    case Delivered(body) => Answer(body)
    case Rejected(error) => Failure(false, error)
  }

  /** The global `OpenSentinel` object. */
  class Sensor {
    var endpoint: string
    var mouseEvents: seq<MouseEvent>
    var keyEvents: seq<KeyEvent>
    var initialized: bool
    /** How many times the `mousemove`/`keydown` listener pair was registered. */
    var listenerPairs: nat

    /** Both buffers within capacity; listeners registered once, after `init`. */
    ghost predicate Valid()
      reads this
    {
      && |mouseEvents| <= MaxEvents
      && |keyEvents| <= MaxEvents
      && listenerPairs == (if initialized then 1 else 0)
    }

    constructor ()
      ensures Valid()
      ensures endpoint == DefaultEndpoint
      ensures mouseEvents == [] && keyEvents == []
      ensures !initialized && listenerPairs == 0
    {
      endpoint := DefaultEndpoint;
      mouseEvents := [];
      keyEvents := [];
      initialized := false;
      listenerPairs := 0;
    }

    /** `init`: only the first call has an effect. */
    method Init(config: Option<Config>)
      requires Valid()
      modifies this
      ensures Valid()
      ensures old(initialized) ==> unchanged(this)
      ensures !old(initialized) ==> initialized && endpoint == ConfiguredEndpoint(old(endpoint), config)
      ensures mouseEvents == old(mouseEvents) && keyEvents == old(keyEvents)
    {
      if initialized {
        return;
      }
      if config.Some? && config.value.endpoint.Some? && config.value.endpoint.value != "" {
        endpoint := config.value.endpoint.value;
      }
      StartListening();
      initialized := true;
    }

    /** `startListening`: registers one more listener pair. */
    method StartListening()
      modifies this
      ensures listenerPairs == old(listenerPairs) + 1
      ensures endpoint == old(endpoint) && initialized == old(initialized)
      ensures mouseEvents == old(mouseEvents) && keyEvents == old(keyEvents)
    {
      listenerPairs := listenerPairs + 1;
    }

    /** `recordMouse` for a `mousemove` at (`x`, `y`) at time `now`. */
    method RecordMouse(x: real, y: real, now: real)
      requires Valid()
      modifies this
      ensures Valid()
      ensures mouseEvents == Push(old(mouseEvents), MouseEvent(x, y, now))
      ensures keyEvents == old(keyEvents)
      ensures endpoint == old(endpoint) && initialized == old(initialized)
      ensures listenerPairs == old(listenerPairs)
    {
      if |mouseEvents| >= MaxEvents {
        mouseEvents := mouseEvents[1..];
      }
      mouseEvents := mouseEvents + [MouseEvent(x, y, now)];
    }

    /** `recordKey` for a `keydown` with key code `code` at time `now`. */
    method RecordKey(code: string, now: real)
      requires Valid()
      modifies this
      ensures Valid()
      ensures keyEvents == Push(old(keyEvents), KeyEvent(code, now))
      ensures mouseEvents == old(mouseEvents)
      ensures endpoint == old(endpoint) && initialized == old(initialized)
      ensures listenerPairs == old(listenerPairs)
    {
      if |keyEvents| >= MaxEvents {
        keyEvents := keyEvents[1..];
      }
      keyEvents := keyEvents + [KeyEvent(code, now)];
    }

    /**
     * `verify`: posts the two buffers and the user agent to the endpoint;
     * `fetch` stands for the network round trip and the JSON parse.
     */
    method Verify(userAgent: string, fetch: (string, VerifyRequest) -> FetchOutcome)
      returns (payload: VerifyRequest, result: ClientResult)
      ensures payload.mouseEvents == mouseEvents && payload.keyEvents == keyEvents
      ensures payload.userAgent == userAgent
      ensures result == ToResult(fetch(endpoint, payload))
      ensures result.Failure? ==> !result.passed
    {
      payload := VerifyRequest(mouseEvents, keyEvents, userAgent);
      var outcome := fetch(endpoint, payload);
      match outcome {
        case Delivered(body) =>
          result := Answer(body);
        case Rejected(error) =>
          result := Failure(false, error);
      }
    }
  }
}
