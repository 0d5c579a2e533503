/** The streaming callback of the chat model (`GeminiCallbackHandler`): it buffers the
    tokens of one response and redraws a single display slot, throttled by a delay that
    shrinks as tokens accumulate.  Clock readings are integer milliseconds passed in. */
module Streaming {
  import opened Text

  /** The default `max_update_rate` (0.3 s). */
  const DefaultMaxUpdateRate: nat := 300

  /** What `on_llm_end` shows when the model produced only whitespace. */
  const FallbackResponse: string := "Maaf, saya tidak mendapat " + "respon yang valid."

  /** How many characters of the response are shown before `...`. */
  const DisplayLimit: nat := 200

  /** What one redraw of the display slot shows: the loading notice, an intermediate
      rendering of the text so far, or the final rendering. */
  datatype Frame = Preparing | Progress(content: string) | Final(content: string)

  /** The handler's fields as one value. */
  datatype HandlerState = HandlerState(
    response: string,
    lastUpdate: int,
    lastTokenTime: int,
    maxUpdateRate: nat,
    tokenCount: nat,
    frames: seq<Frame>)

  /** `max(max_update_rate, 0.5 - min(token_count * 0.01, 0.4))`, in milliseconds. */
  function DynamicDelay(rate: nat, count: nat): (d: int)
    ensures d >= rate && d >= 100
    ensures d <= Max(rate, 500)
    ensures count >= 1 ==> d <= Max(rate, 490)
    ensures count >= 40 ==> d == Max(rate, 100)
  {
    Max(rate, 500 - Min(count * 10, 400))
  }

  /** More tokens never make the delay longer. */
  lemma DelayNonIncreasing(rate: nat, count: nat, later: nat)
    requires count <= later
    ensures DynamicDelay(rate, later) <= DynamicDelay(rate, count)
  {
  }

  /** The text `_update_display` renders: the response, cut to 200 characters plus `...`. */
  function DisplayText(response: string): (shown: string)
    ensures |shown| <= DisplayLimit + 3
    ensures |response| <= DisplayLimit ==> shown == response
    ensures |response| > DisplayLimit ==> shown == response[..DisplayLimit] + "..."
  {
    Clip(response, DisplayLimit)
  }

  /** The state right after construction, both clock readings taken as `now`. */
  function Initial(rate: nat, now: int): (st: HandlerState)
    ensures st.response == "" && st.tokenCount == 0 && st.frames == []
    ensures st.lastUpdate == now && st.lastTokenTime == now && st.maxUpdateRate == rate
  {
    HandlerState("", now, now, rate, 0, [])
  }

  /** The rendering `_update_display` adds for the current response. */
  function Render(response: string, final: bool): Frame
  {
    if final then Final(DisplayText(response)) else Progress(DisplayText(response))
  }

  /** `on_llm_new_token(token)` at clock reading `now`. */
  function NewToken(st: HandlerState, token: string, now: int): HandlerState
  {
    var response := st.response + token;
    var count := st.tokenCount + 1;
    if now - st.lastUpdate >= DynamicDelay(st.maxUpdateRate, count) then
      st.(response := response, tokenCount := count, frames := st.frames + [Render(response, false)],
          lastUpdate := now, lastTokenTime := now)
    else
      st.(response := response, tokenCount := count)
  }

  /** `on_llm_end`. */
  function End(st: HandlerState): HandlerState
  {
    var response := if IsBlank(st.response) then FallbackResponse else st.response;
    st.(response := response, frames := st.frames + [Render(response, true)])
  }

  /** One token appends to the buffer and counts once; the display is redrawn, and both
      clock fields move to `now`, exactly when the elapsed time reaches the delay. */
  lemma NewTokenEffect(st: HandlerState, token: string, now: int)
    ensures var next := NewToken(st, token, now);
            var redraw := now - st.lastUpdate >= DynamicDelay(st.maxUpdateRate, st.tokenCount + 1);
            && next.response == st.response + token
            && next.tokenCount == st.tokenCount + 1
            && next.maxUpdateRate == st.maxUpdateRate
            && (redraw ==> next.frames == st.frames + [Progress(DisplayText(next.response))]
                           && next.lastUpdate == now && next.lastTokenTime == now)
            && (!redraw ==> next.frames == st.frames
                            && next.lastUpdate == st.lastUpdate && next.lastTokenTime == st.lastTokenTime)
  {
  }

  /** The final response is never blank: a blank one is replaced by the fallback message,
      any other one is kept; exactly one final rendering of it is added. */
  lemma EndNeverShowsBlank(st: HandlerState)
    ensures var fin := End(st);
            && NonBlank(fin.response)
            && (NonBlank(st.response) ==> fin.response == st.response)
            && (IsBlank(st.response) ==> fin.response == FallbackResponse)
            && fin.frames == st.frames + [Final(DisplayText(fin.response))]
  {
    FallbackIsNonBlank();
  }

  lemma FallbackIsNonBlank()
    ensures NonBlank(FallbackResponse)
  {
    assert !IsSpace(FallbackResponse[0]);
  }

  // ----- a stream of tokens -----

  /** A token and the clock reading at which it arrived. */
  datatype Arrival = Arrival(token: string, time: int)

  /** The concatenation of the arriving tokens. */
  function Tokens(arrivals: seq<Arrival>): string
  {
    if arrivals == [] then "" else arrivals[0].token + Tokens(arrivals[1..])
  }

  /** `on_llm_new_token` called once per arrival, in order. */
  function Feed(st: HandlerState, arrivals: seq<Arrival>): HandlerState
    decreases |arrivals|
  {
    if arrivals == [] then st else Feed(NewToken(st, arrivals[0].token, arrivals[0].time), arrivals[1..])
  }

  /** Every token is kept, in order, and counted, whatever redraws happen. */
  lemma {:induction false} FeedAppendsEveryToken(st: HandlerState, arrivals: seq<Arrival>)
    ensures Feed(st, arrivals).response == st.response + Tokens(arrivals)
    ensures Feed(st, arrivals).tokenCount == st.tokenCount + |arrivals|
    ensures Feed(st, arrivals).maxUpdateRate == st.maxUpdateRate
    decreases |arrivals|
  {
    if arrivals != [] {
      var next := NewToken(st, arrivals[0].token, arrivals[0].time);
      FeedAppendsEveryToken(next, arrivals[1..]);
      assert st.response + Tokens(arrivals) == next.response + Tokens(arrivals[1..]);
    }
  }

  /** Feeding tokens only adds intermediate renderings after the earlier frames. */
  lemma {:induction false} FeedOnlyAddsProgress(st: HandlerState, arrivals: seq<Arrival>)
    ensures var fin := Feed(st, arrivals);
            && |st.frames| <= |fin.frames|
            && fin.frames[..|st.frames|] == st.frames
            && (forall i :: |st.frames| <= i < |fin.frames| ==> fin.frames[i].Progress?)
    decreases |arrivals|
  {
    if arrivals != [] {
      var next := NewToken(st, arrivals[0].token, arrivals[0].time);
      NewTokenEffect(st, arrivals[0].token, arrivals[0].time);
      FeedOnlyAddsProgress(next, arrivals[1..]);
      var fin := Feed(next, arrivals[1..]);
      assert fin == Feed(st, arrivals);
      var n0, n1 := |st.frames|, |next.frames|;
      assert next.frames[..n0] == st.frames;
      assert fin.frames[..n0] == fin.frames[..n1][..n0];
      if n1 == n0 + 1 {
        assert fin.frames[n0] == next.frames[n0];
      }
    }
  }

  /** Redraws are spaced: every intermediate redraw moves `last_update` forward by at least
      `max(rate, 100 ms)`. */
  lemma {:induction false} FeedRedrawSpacing(st: HandlerState, arrivals: seq<Arrival>)
    ensures var fin := Feed(st, arrivals);
            (|fin.frames| - |st.frames|) * Max(st.maxUpdateRate, 100) <= fin.lastUpdate - st.lastUpdate
    decreases |arrivals|
  {
    if arrivals != [] {
      var next := NewToken(st, arrivals[0].token, arrivals[0].time);
      NewTokenEffect(st, arrivals[0].token, arrivals[0].time);
      FeedRedrawSpacing(next, arrivals[1..]);
      var fin := Feed(next, arrivals[1..]);
      assert fin == Feed(st, arrivals);
      var m := Max(st.maxUpdateRate, 100);
      var n0, n1, n2 := |st.frames|, |next.frames|, |fin.frames|;
      assert (n2 - n1) * m <= fin.lastUpdate - next.lastUpdate;
      if n1 == n0 + 1 {
        assert next.lastUpdate - st.lastUpdate >= m;
        assert (n2 - n0) * m == (n2 - n1) * m + m;
      }
    }
  }

  /** Tokens arriving within `max(rate, 100 ms)` of the last redraw cause no redraw and
      leave both clock fields as they were. */
  lemma {:induction false} BurstTriggersNoRedraw(st: HandlerState, arrivals: seq<Arrival>)
    requires forall i :: 0 <= i < |arrivals| ==> arrivals[i].time < st.lastUpdate + Max(st.maxUpdateRate, 100)
    ensures Feed(st, arrivals).frames == st.frames
    ensures Feed(st, arrivals).lastUpdate == st.lastUpdate
    ensures Feed(st, arrivals).lastTokenTime == st.lastTokenTime
    decreases |arrivals|
  {
    if arrivals != [] {
      var next := NewToken(st, arrivals[0].token, arrivals[0].time);
      assert next.frames == st.frames && next.lastUpdate == st.lastUpdate;
      forall i | 0 <= i < |arrivals[1..]|
        ensures arrivals[1..][i].time < next.lastUpdate + Max(next.maxUpdateRate, 100)
      {
        assert arrivals[1..][i] == arrivals[i + 1];
      }
      BurstTriggersNoRedraw(next, arrivals[1..]);
    }
  }

  /** `last_update` and `last_token_time` are always set together, so they stay equal. */
  lemma {:induction false} FeedKeepsClocksTogether(st: HandlerState, arrivals: seq<Arrival>)
    requires st.lastUpdate == st.lastTokenTime
    ensures Feed(st, arrivals).lastUpdate == Feed(st, arrivals).lastTokenTime
    decreases |arrivals|
  {
    if arrivals != [] {
      FeedKeepsClocksTogether(NewToken(st, arrivals[0].token, arrivals[0].time), arrivals[1..]);
    }
  }

  // ----- the handler object -----

  class GeminiCallbackHandler {
    var response: string
    var lastUpdate: int
    var lastTokenTime: int
    var maxUpdateRate: nat
    var tokenCount: nat
    /** Every rendering made into the display slot, oldest first; the slot shows the last. */
    var frames: seq<Frame>

    function State(): HandlerState
      reads this
    {
      HandlerState(response, lastUpdate, lastTokenTime, maxUpdateRate, tokenCount, frames)
    }

    constructor (now: int, maxUpdateRate: nat := DefaultMaxUpdateRate)
      ensures State() == Initial(maxUpdateRate, now)
    {
      response := "";
      lastUpdate := now;
      lastTokenTime := now;
      this.maxUpdateRate := maxUpdateRate;
      tokenCount := 0;
      frames := [];
    }

    /** Shows the loading notice. */
    method OnLlmStart()
      modifies this
      ensures State() == old(State()).(frames := old(frames) + [Preparing])
    {
      frames := frames + [Preparing];
    }

    method OnLlmNewToken(token: string, now: int)
      modifies this
      ensures State() == NewToken(old(State()), token, now)
    {
      response := response + token;
      tokenCount := tokenCount + 1;
      var elapsed := now - lastUpdate;
      var dynamicDelay := DynamicDelay(maxUpdateRate, tokenCount);
      if elapsed >= dynamicDelay {
        UpdateDisplay(false);
        lastUpdate := now;
        lastTokenTime := now;
      }
    }

    method OnLlmEnd()
      modifies this
      ensures State() == End(old(State()))
    {
      if IsBlank(response) {
        response := FallbackResponse;
      }
      UpdateDisplay(true);
    }

    /** `_update_display`: renders the truncated response; the response itself is untouched. */
    method UpdateDisplay(final: bool)
      modifies this`frames
      ensures frames == old(frames) + [Render(response, final)]
    {
      var truncated := DisplayText(response);
      if final {
        frames := frames + [Final(truncated)];
      } else {
        frames := frames + [Progress(truncated)];
      }
    }
  }
}
