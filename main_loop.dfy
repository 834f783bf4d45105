/**
 * `main` of homework.py: the restart supervisor that re-checks the secrets up to
 * three times, and the polling loop that turns each cycle into one candidate
 * message and sends it only when it differs from the last delivered one.
 * The recursive restart is a loop, and `while True` is a single-cycle method
 * plus a method that runs any finite prefix of cycles.  Whether the bot
 * delivers a message is an input; sleeping is not modelled.
 */
module MainLoop {
  import opened Wrappers
  import opened Homework

  // ---------------------------------------------------- duplicate suppression

  /** One cycle as the deduplication sees it: the candidate message, and whether
      the bot would deliver it if asked. */
  datatype Tick = Tick(candidate: string, delivered: bool)

  /** A send is attempted only for a candidate different from `old_message`; before the
      first delivery every candidate is sent. */
  predicate Attempts(oldMessage: Option<string>, candidate: string): (attempt: bool)
    ensures oldMessage == None ==> attempt
    ensures oldMessage == Some(candidate) ==> !attempt
    ensures oldMessage.Some? && oldMessage.value != candidate ==> attempt
  {
    oldMessage != Some(candidate)
  }

  /** `old_message` after one cycle: the candidate once it has been delivered.  It changes
      only on a delivery, and a cycle whose send would succeed always ends with the
      candidate as `old_message`. */
  function After(oldMessage: Option<string>, tick: Tick): (last: Option<string>)
    ensures last == oldMessage || last == Some(tick.candidate)
    ensures last != oldMessage ==> tick.delivered && Attempts(oldMessage, tick.candidate)
    ensures tick.delivered ==> last == Some(tick.candidate)
  {
    if Attempts(oldMessage, tick.candidate) && tick.delivered then Some(tick.candidate) else oldMessage
  }

  /** `old_message` after a run of cycles. */
  function LastAfter(oldMessage: Option<string>, ticks: seq<Tick>): Option<string>
    decreases |ticks|
  {
    if ticks == [] then oldMessage
    else After(LastAfter(oldMessage, ticks[..|ticks| - 1]), ticks[|ticks| - 1])
  }

  /** The candidates the bot was asked to send during a run, in order. */
  function SendAttempts(oldMessage: Option<string>, ticks: seq<Tick>): seq<string>
    decreases |ticks|
  {
    if ticks == [] then []
    else
      var init := ticks[..|ticks| - 1];
      var tick := ticks[|ticks| - 1];
      SendAttempts(oldMessage, init) +
      (if Attempts(LastAfter(oldMessage, init), tick.candidate) then [tick.candidate] else [])
  }

  /** The messages the user received during a run, in order. */
  function Deliveries(oldMessage: Option<string>, ticks: seq<Tick>): seq<string>
    decreases |ticks|
  {
    if ticks == [] then []
    else
      var init := ticks[..|ticks| - 1];
      var tick := ticks[|ticks| - 1];
      Deliveries(oldMessage, init) +
      (if Attempts(LastAfter(oldMessage, init), tick.candidate) && tick.delivered
       then [tick.candidate] else [])
  }

  /** `old_message` is always the last message delivered, and the user never receives
      the same message twice in a row (nor the one that was last before the run). */
  lemma {:induction false} DeliveriesNeverRepeat(oldMessage: Option<string>, ticks: seq<Tick>)
    ensures var d := Deliveries(oldMessage, ticks);
            LastAfter(oldMessage, ticks) == (if d == [] then oldMessage else Some(d[|d| - 1]))
    ensures var d := Deliveries(oldMessage, ticks);
            forall i :: 0 < i < |d| ==> d[i - 1] != d[i]
    ensures var d := Deliveries(oldMessage, ticks);
            oldMessage.Some? && d != [] ==> d[0] != oldMessage.value
    decreases |ticks|
  {
    if ticks != [] {
      var init := ticks[..|ticks| - 1];
      DeliveriesNeverRepeat(oldMessage, init);
    }
  }

  /** The same candidate twice in a row is delivered at most once, and once it has
      been delivered the second cycle does not even try. */
  lemma SameCandidateTwice(oldMessage: Option<string>, m: string, d1: bool, d2: bool)
    ensures |Deliveries(oldMessage, [Tick(m, d1)] + [Tick(m, d2)])| <= 1
    ensures Attempts(oldMessage, m) && d1 ==> SendAttempts(oldMessage, [Tick(m, d1)] + [Tick(m, d2)]) == [m]
  {
    var first := [Tick(m, d1)];
    var ticks := first + [Tick(m, d2)];
    assert ticks[..1] == first && first[..0] == [];
    assert LastAfter(oldMessage, first) == After(oldMessage, Tick(m, d1));
    assert SendAttempts(oldMessage, first) == if Attempts(oldMessage, m) then [m] else [];
    assert Deliveries(oldMessage, first) == if Attempts(oldMessage, m) && d1 then [m] else [];
  }

  /** A failed delivery leaves `old_message` alone, so the same candidate is tried again
      in the next cycle. */
  lemma FailedDeliveryIsRetried(oldMessage: Option<string>, m: string, d2: bool)
    requires Attempts(oldMessage, m)
    ensures SendAttempts(oldMessage, [Tick(m, false)] + [Tick(m, d2)]) == [m, m]
  {
    var first := [Tick(m, false)];
    var ticks := first + [Tick(m, d2)];
    assert ticks[..1] == first && first[..0] == [];
    assert LastAfter(oldMessage, first) == After(oldMessage, Tick(m, false));
    assert SendAttempts(oldMessage, first) == if Attempts(oldMessage, m) then [m] else [];
  }

  // ------------------------------------------------------------ restarting

  /** The restart counter kept on the function try_start_counter. */
  class StartCounter {
    var counter: nat

    constructor ()
      ensures counter == 0
    {
      counter := 0;
    }

    /** try_start_counter */
    method TryStartCounter()
      modifies this
      ensures counter == old(counter) + 1
    {
      counter := counter + 1;
    }
  }

  /** The attempt whose failed check ends the program. */
  const STOP_AFTER := 3

  /** How a call of main ends: `sys.exit` with a status code, an exception escaping from
      the construction of the bot, or polling forever. */
  datatype Launch = Exit(code: int) | BotFailed | Polling

  /** One cycle's inputs from outside: the clock, the HTTP client, and the bot's delivery. */
  datatype CycleInput = CycleInput(now: int, http: Request -> Reply, delivered: bool)

  /** The state of the activation of main that runs the `while True` loop. */
  class Poller {
    /** `current_timestamp`, read from the clock once and never advanced. */
    const currentTimestamp: int
    /** PRACTICUM_TOKEN, from which the request header is built. */
    const token: Option<string>
    /** `old_message`: the last message the bot delivered, None before the first. */
    var oldMessage: Option<string>

    constructor (startTime: int, token: Option<string>)
      ensures currentTimestamp == startTime && this.token == token && oldMessage == None
    {
      currentTimestamp := startTime;
      this.token := token;
      oldMessage := None;
    }

    /** One pass of the loop: poll with the fixed cursor, form the candidate, send it when
        it is new, and remember it only when it was delivered. */
    method Cycle(now: int, http: Request -> Reply, delivered: bool)
      returns (request: Request, message: string, attempted: bool)
      modifies this
      ensures request == RequestFor(Some(currentTimestamp), now, token)
      ensures currentTimestamp != 0 ==> request.fromDate == currentTimestamp
      ensures message == CandidateMessage(Some(currentTimestamp), now, token, http)
      ensures attempted <==> Attempts(old(oldMessage), message)
      ensures oldMessage == After(old(oldMessage), Tick(message, delivered))
    {
      request := RequestFor(Some(currentTimestamp), now, token);
      message := CandidateMessage(Some(currentTimestamp), now, token, http);
      if oldMessage != Some(message) {
        attempted := true;
        if delivered {
          oldMessage := Some(message);
        }
      } else {
        attempted := false;
      }
    }

    /** A finite prefix of the `while True` loop, one cycle per input. */
    method Run(inputs: seq<CycleInput>) returns (requests: seq<Request>, ticks: seq<Tick>, sent: seq<string>)
      modifies this
      ensures |requests| == |ticks| == |inputs|
      ensures forall i :: 0 <= i < |inputs| ==>
                requests[i] == RequestFor(Some(currentTimestamp), inputs[i].now, token)
      ensures currentTimestamp != 0 ==> forall i :: 0 <= i < |inputs| ==> requests[i].fromDate == currentTimestamp
      ensures forall i :: 0 <= i < |inputs| ==>
                ticks[i] == Tick(CandidateMessage(Some(currentTimestamp), inputs[i].now, token, inputs[i].http),
                                 inputs[i].delivered)
      ensures sent == SendAttempts(old(oldMessage), ticks)
      ensures oldMessage == LastAfter(old(oldMessage), ticks)
    {
      requests, ticks, sent := [], [], [];
      var i := 0;
      while i < |inputs|
        invariant 0 <= i <= |inputs|
        invariant |requests| == |ticks| == i
        invariant forall j :: 0 <= j < i ==>
                    requests[j] == RequestFor(Some(currentTimestamp), inputs[j].now, token)
        invariant forall j :: 0 <= j < i ==>
                    ticks[j] == Tick(CandidateMessage(Some(currentTimestamp), inputs[j].now, token, inputs[j].http),
                                     inputs[j].delivered)
        invariant sent == SendAttempts(old(oldMessage), ticks)
        invariant oldMessage == LastAfter(old(oldMessage), ticks)
      {
        var request, message, attempted := Cycle(inputs[i].now, inputs[i].http, inputs[i].delivered);
        var before := ticks;
        requests := requests + [request];
        ticks := ticks + [Tick(message, inputs[i].delivered)];
        assert ticks[..|ticks| - 1] == before;
        if attempted {
          sent := sent + [message];
        }
        i := i + 1;
      }
    }
  }

  /** `main`, with its recursive restart as a loop.  Each activation reads the clock and
      builds the bot before it checks the secrets; `botBuilds` says whether building the
      bot from TELEGRAM_TOKEN returns (the library decides that), and `clock(k)` is the time
      read by the activation that starts with the counter at k.  Each failed check bumps
      the counter, and the check that brings it to 3 exits with status 1.  The secrets are
      read once at load time, so a restart checks the same values again. */
  method StartBot(starts: StartCounter, tokens: Tokens, botBuilds: bool, clock: nat -> int)
    returns (launch: Launch, poller: Poller?)
    requires starts.counter < STOP_AFTER
    modifies starts
    ensures launch == BotFailed <==> !botBuilds
    ensures launch == Polling <==> botBuilds && CheckTokens(tokens)
    ensures launch.Exit? <==> botBuilds && !CheckTokens(tokens)
    ensures launch == Polling ==>
              starts.counter == old(starts.counter) && poller != null && fresh(poller) &&
              poller.currentTimestamp == clock(old(starts.counter)) &&
              poller.token == tokens.practicum && poller.oldMessage == None
    ensures launch.Exit? ==> launch.code == 1 && starts.counter == STOP_AFTER && poller == null
    ensures launch == BotFailed ==> starts.counter == old(starts.counter) && poller == null
  {
    while true
      invariant old(starts.counter) <= starts.counter < STOP_AFTER
      invariant starts.counter != old(starts.counter) ==> botBuilds && !CheckTokens(tokens)
      decreases STOP_AFTER - starts.counter
    {
      var currentTimestamp := clock(starts.counter);
      if !botBuilds {
        launch, poller := BotFailed, null;
        return;
      }
      if CheckTokens(tokens) {
        poller := new Poller(currentTimestamp, tokens.practicum);
        launch := Polling;
        return;
      }
      starts.TryStartCounter();
      if starts.counter == STOP_AFTER {
        launch, poller := Exit(1), null;
        return;
      }
    }
  }
}
