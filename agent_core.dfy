/** The cancellable streaming loop of the agent orchestrator
    (src/agent/agent_core.py).

    The agent's event stream is a finite sequence of events. The two outside
    parties the loop consults are oracles indexed by the position of the event
    being handled:
    - `store(i)` is what the Redis signal store answers if it is asked while
      event i is handled: a stop signal (true or false), or a failure;
    - `toolRaises(i)` says whether the agent's stop tool raises if it is
      called while event i is handled.
    The loop is modelled twice: as the method `AgentOrchestrator.StreamResponse`,
    which updates the orchestrator's `stopRequested` field as it goes, and as
    the function `Run`, which says what the first n events produce; `Step` is
    one turn of the loop. What `Run` implies is proved in module
    AgentCoreProperties. */
module AgentCore {

  import opened Wrappers

  /** One event of the agent's stream; `data` is present when the event
      carries a "data" key. */
  datatype Event = Event(data: Option<string>)

  /** What the signal store answers, or a failure to reach it. */
  datatype StoreReply = Signal(stopSet: bool) | Failure

  /** How a stream ends: after the last event, or with the exception raised
      by the stop tool (nothing catches it). */
  datatype Outcome = Completed | StopToolRaised

  /** One stop check: the answer, whether the store was asked, and the value
      of the sticky flag afterwards. */
  datatype Check = Check(stop: bool, queried: bool, flag: bool)

  /** Everything a stream produces: the fragments it yields in order, how
      often it called the stop tool and asked the store, the flag it leaves
      behind and how it ended. */
  datatype Trace = Trace(output: seq<string>, stopCalls: nat, queries: nat,
                         stopRequested: bool, outcome: Outcome)

  /** The fragment yielded when a stop is detected. */
  const STOPPED: string := "[STOPPED]"

  // ---------------------------------------------------------------------------
  // Specification

  /** The stop check: a set flag answers at once without asking the store;
      otherwise the store is asked, a true signal sets the flag, and a false
      signal or a failure both answer "no stop". */
  function StopCheck(flag: bool, reply: StoreReply): (c: Check)
    ensures flag ==> c.stop && !c.queried
    ensures !flag ==> c.queried
    ensures c.stop <==> flag || reply == Signal(true)
    ensures c.flag == c.stop
  {
    if flag then Check(true, false, true)
    else
      match reply
      case Signal(stopSet) => if stopSet then Check(true, true, true) else Check(false, true, false)
      case Failure => Check(false, true, false)
  }

  /** The fragments an event yields by itself: its data, if it has any. */
  function DataOf(e: Event): seq<string>
  {
    match e.data
    case Some(d) => [d]
    case None => []
  }

  /** The data of the first n events, in order. */
  function Payload(events: seq<Event>, n: nat): seq<string>
    requires n <= |events|
  {
    if n == 0 then [] else Payload(events, n - 1) + DataOf(events[n - 1])
  }

  /** The data of events m to n - 1, each event's preceded by the stop marker. */
  function StoppedPayload(events: seq<Event>, m: nat, n: nat): seq<string>
    requires m <= n <= |events|
    decreases n
  {
    if n == m then [] else StoppedPayload(events, m, n - 1) + [STOPPED] + DataOf(events[n - 1])
  }

  /** The loop's handling of one event, from the result so far. Once the stop
      tool has raised, the stream is over and the event changes nothing. */
  function Step(prev: Trace, e: Event, reply: StoreReply, raises: bool): (next: Trace)
  {
    if prev.outcome == StopToolRaised then prev
    else
      var c := StopCheck(prev.stopRequested, reply);
      var queries := prev.queries + if c.queried then 1 else 0;
      if c.stop && raises then
        Trace(prev.output, prev.stopCalls + 1, queries, true, StopToolRaised)
      else if c.stop then
        Trace(prev.output + [STOPPED] + DataOf(e), prev.stopCalls + 1, queries, true, Completed)
      else
        Trace(prev.output + DataOf(e), prev.stopCalls, queries, false, Completed)
  }

  /** What the loop has produced after handling the first n events, when the
      flag was `flag` as the stream started. */
  function Run(events: seq<Event>, store: nat -> StoreReply, toolRaises: nat -> bool,
               flag: bool, n: nat): Trace
    requires n <= |events|
  {
    if n == 0 then Trace([], 0, 0, flag, Completed)
    else Step(Run(events, store, toolRaises, flag, n - 1), events[n - 1], store(n - 1), toolRaises(n - 1))
  }

  /** After the stop tool has raised, the stream's result is final. */
  lemma {:induction false} RaisedIsFinal(events: seq<Event>, store: nat -> StoreReply,
                                         toolRaises: nat -> bool, flag: bool, m: nat, n: nat)
    requires m <= n <= |events|
    requires Run(events, store, toolRaises, flag, m).outcome == StopToolRaised
    ensures Run(events, store, toolRaises, flag, n) == Run(events, store, toolRaises, flag, m)
    decreases n
  {
    if m < n {
      RaisedIsFinal(events, store, toolRaises, flag, m, n - 1);
    }
  }

  // ---------------------------------------------------------------------------
  // The orchestrator

  class AgentOrchestrator {
    const chatId: string
    var stopRequested: bool

    constructor (chatId: string)
      ensures this.chatId == chatId && !stopRequested
    {
      this.chatId := chatId;
      stopRequested := false;
    }

    /** `_check_stop`; `reply` is what the store would answer if asked now. */
    method CheckStop(reply: StoreReply) returns (stop: bool, queried: bool)
      modifies this
      ensures Check(stop, queried, stopRequested) == StopCheck(old(stopRequested), reply)
      ensures old(stopRequested) ==> stopRequested
    {
      if stopRequested {
        return true, false;
      }
      queried := true;
      match reply {
        case Signal(stopSet) =>
          if stopSet {
            stopRequested := true;
            return true, queried;
          }
        case Failure =>
          // the failure is caught and logged; the check answers "no stop"
      }
      stop := false;
    }

    /** `stream_response`: for each event, run the stop check; on a stop call
        the stop tool and yield the marker; then yield the event's data. */
    method StreamResponse(events: seq<Event>, store: nat -> StoreReply, toolRaises: nat -> bool)
      returns (output: seq<string>, stopCalls: nat, queries: nat, outcome: Outcome)
      modifies this
      ensures Trace(output, stopCalls, queries, stopRequested, outcome)
              == Run(events, store, toolRaises, old(stopRequested), |events|)
    {
      output, stopCalls, queries := [], 0, 0;
      var i := 0;
      while i < |events|
        invariant i <= |events|
        invariant Trace(output, stopCalls, queries, stopRequested, Completed)
                  == Run(events, store, toolRaises, old(stopRequested), i)
      {
        var stop, queried := CheckStop(store(i));
        if queried {
          queries := queries + 1;
        }
        if stop {
          stopCalls := stopCalls + 1;
          if toolRaises(i) {
            RaisedIsFinal(events, store, toolRaises, old(stopRequested), i + 1, |events|);
            return output, stopCalls, queries, StopToolRaised;
          }
          output := output + [STOPPED];
        }
        output := output + DataOf(events[i]);
        i := i + 1;
      }
      outcome := Completed;
    }
  }
}
