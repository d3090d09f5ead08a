/** What the streaming loop of src/agent/agent_core.py guarantees, and what it
    does not: proved about `AgentCore.Run`, which
    `AgentOrchestrator.StreamResponse` is proved to compute. */
module AgentCoreProperties {

  import opened Wrappers
  import opened AgentCore

  // ---------------------------------------------------------------------------
  // One turn of the loop, in each of the cases the lemmas below need

  /** No stop: one query, the data, no stop-tool call. */
  lemma StepWithoutSignal(prev: Trace, e: Event, reply: StoreReply, raises: bool)
    requires !prev.stopRequested && prev.outcome == Completed && reply != Signal(true)
    ensures Step(prev, e, reply, raises)
            == Trace(prev.output + DataOf(e), prev.stopCalls, prev.queries + 1, false, Completed)
  {
  }

  /** The first true signal, with a stop tool that returns: one query, the
      marker, the data, one stop-tool call. */
  lemma StepOnSignal(prev: Trace, e: Event, raises: bool)
    requires !prev.stopRequested && prev.outcome == Completed && !raises
    ensures Step(prev, e, Signal(true), raises)
            == Trace(prev.output + [STOPPED] + DataOf(e), prev.stopCalls + 1, prev.queries + 1, true, Completed)
  {
  }

  /** The first true signal, with a stop tool that raises: one query, one
      stop-tool call, nothing yielded. */
  lemma StepOnSignalRaising(prev: Trace, e: Event)
    requires !prev.stopRequested && prev.outcome == Completed
    ensures Step(prev, e, Signal(true), true)
            == Trace(prev.output, prev.stopCalls + 1, prev.queries + 1, true, StopToolRaised)
  {
  }

  /** The flag already set, with a stop tool that returns: no query, the
      marker, the data, one stop-tool call. */
  lemma StepWhenStopped(prev: Trace, e: Event, reply: StoreReply, raises: bool)
    requires prev.stopRequested && prev.outcome == Completed && !raises
    ensures Step(prev, e, reply, raises)
            == Trace(prev.output + [STOPPED] + DataOf(e), prev.stopCalls + 1, prev.queries, true, Completed)
  {
  }

  /** The flag already set, with a stop tool that raises: no query, one
      stop-tool call, nothing yielded, and the stream ends. */
  lemma StepWhenStoppedRaising(prev: Trace, e: Event, reply: StoreReply)
    requires prev.stopRequested && prev.outcome == Completed
    ensures Step(prev, e, reply, true)
            == Trace(prev.output, prev.stopCalls + 1, prev.queries, true, StopToolRaised)
  {
  }

  // ---------------------------------------------------------------------------
  // Sequence bookkeeping

  lemma Reassociate(a: seq<string>, b: seq<string>, c: seq<string>, d: seq<string>)
    ensures a + b + c + d == a + (b + c + d)
  {
  }

  /** The stopped payload of a range, split after its first event. */
  lemma {:induction false} StoppedPayloadFirst(events: seq<Event>, m: nat, n: nat)
    requires m < n <= |events|
    ensures StoppedPayload(events, m, n)
            == [STOPPED] + DataOf(events[m]) + StoppedPayload(events, m + 1, n)
    decreases n
  {
    if n == m + 1 {
      assert [] + [STOPPED] == [STOPPED];
      assert [STOPPED] + DataOf(events[m]) + [] == [STOPPED] + DataOf(events[m]);
    } else {
      StoppedPayloadFirst(events, m, n - 1);
      Reassociate([STOPPED] + DataOf(events[m]), StoppedPayload(events, m + 1, n - 1),
                  [STOPPED], DataOf(events[n - 1]));
    }
  }

  // ---------------------------------------------------------------------------
  // Bounds and the sticky flag

  /** The store is asked at most once per event, the stop tool called at most
      once per event. */
  lemma {:induction false} AtMostOncePerEvent(events: seq<Event>, store: nat -> StoreReply,
                                              toolRaises: nat -> bool, flag: bool, n: nat)
    requires n <= |events|
    ensures Run(events, store, toolRaises, flag, n).queries <= n
    ensures Run(events, store, toolRaises, flag, n).stopCalls <= n
    decreases n
  {
    if n > 0 {
      AtMostOncePerEvent(events, store, toolRaises, flag, n - 1);
    }
  }

  /** Nothing turns the stop flag back off: once set after m events it is
      still set after any later number of events. */
  lemma {:induction false} StopFlagMonotone(events: seq<Event>, store: nat -> StoreReply,
                                            toolRaises: nat -> bool, flag: bool, m: nat, n: nat)
    requires m <= n <= |events|
    requires Run(events, store, toolRaises, flag, m).stopRequested
    ensures Run(events, store, toolRaises, flag, n).stopRequested
    decreases n
  {
    if m < n {
      StopFlagMonotone(events, store, toolRaises, flag, m, n - 1);
    }
  }

  /** A stream that starts with the flag already set never asks the store. */
  lemma {:induction false} SetFlagNeverQueries(events: seq<Event>, store: nat -> StoreReply,
                                               toolRaises: nat -> bool, n: nat)
    requires n <= |events|
    ensures Run(events, store, toolRaises, true, n).queries == 0
    ensures Run(events, store, toolRaises, true, n).stopRequested
    decreases n
  {
    if n > 0 {
      SetFlagNeverQueries(events, store, toolRaises, n - 1);
    }
  }

  // ---------------------------------------------------------------------------
  // Streams without a stop

  /** Before any true signal, each event yields just its data and costs one
      store query. */
  lemma {:induction false} DataUntilSignal(events: seq<Event>, store: nat -> StoreReply,
                                           toolRaises: nat -> bool, n: nat)
    requires n <= |events|
    requires forall j :: 0 <= j < n ==> store(j) != Signal(true)
    ensures Run(events, store, toolRaises, false, n) == Trace(Payload(events, n), 0, n, false, Completed)
    decreases n
  {
    if n > 0 {
      DataUntilSignal(events, store, toolRaises, n - 1);
      StepWithoutSignal(Run(events, store, toolRaises, false, n - 1), events[n - 1],
                        store(n - 1), toolRaises(n - 1));
    }
  }

  /** If the store never answers "stop" (it answers false or fails), the
      stream is exactly the events' data in order: no marker, no stop-tool
      call, one store query per event. */
  lemma NoSignalYieldsData(events: seq<Event>, store: nat -> StoreReply, toolRaises: nat -> bool)
    requires forall j :: 0 <= j < |events| ==> store(j) != Signal(true)
    ensures Run(events, store, toolRaises, false, |events|)
            == Trace(Payload(events, |events|), 0, |events|, false, Completed)
  {
    DataUntilSignal(events, store, toolRaises, |events|);
  }

  /** A store that only ever fails cannot stop the stream. */
  lemma StoreFailuresAreHarmless(events: seq<Event>, store: nat -> StoreReply, toolRaises: nat -> bool)
    requires forall j :: 0 <= j < |events| ==> store(j) == Failure
    ensures Run(events, store, toolRaises, false, |events|).output == Payload(events, |events|)
    ensures Run(events, store, toolRaises, false, |events|).outcome == Completed
  {
    NoSignalYieldsData(events, store, toolRaises);
  }

  // ---------------------------------------------------------------------------
  // Streams with a stop

  /** Once the flag is set, every further event yields the marker followed by
      its data and calls the stop tool once, and the store is not asked. */
  lemma {:induction false} StoppedFrom(events: seq<Event>, store: nat -> StoreReply,
                                       toolRaises: nat -> bool, flag: bool, m: nat, n: nat)
    requires m <= n <= |events|
    requires Run(events, store, toolRaises, flag, m).stopRequested
    requires Run(events, store, toolRaises, flag, m).outcome == Completed
    requires forall j :: m <= j < n ==> !toolRaises(j)
    ensures var before := Run(events, store, toolRaises, flag, m);
            Run(events, store, toolRaises, flag, n)
            == Trace(before.output + StoppedPayload(events, m, n), before.stopCalls + (n - m),
                     before.queries, true, Completed)
    decreases n
  {
    var before := Run(events, store, toolRaises, flag, m);
    if n == m {
      assert before.output + [] == before.output;
    } else {
      StoppedFrom(events, store, toolRaises, flag, m, n - 1);
      StepWhenStopped(Run(events, store, toolRaises, flag, n - 1), events[n - 1],
                      store(n - 1), toolRaises(n - 1));
      Reassociate(before.output, StoppedPayload(events, m, n - 1), [STOPPED], DataOf(events[n - 1]));
    }
  }

  /** A second stream on an orchestrator whose flag is already set: every
      event yields the marker and its data, the stop tool is called once per
      event, and the store is never asked. */
  lemma StreamAfterStop(events: seq<Event>, store: nat -> StoreReply, toolRaises: nat -> bool)
    requires forall j :: 0 <= j < |events| ==> !toolRaises(j)
    ensures Run(events, store, toolRaises, true, |events|)
            == Trace(StoppedPayload(events, 0, |events|), |events|, 0, true, Completed)
  {
    StoppedFrom(events, store, toolRaises, true, 0, |events|);
    assert [] + StoppedPayload(events, 0, |events|) == StoppedPayload(events, 0, |events|);
  }

  /** The state right after the first true signal, when the stop tool
      returns. */
  lemma FirstStopState(events: seq<Event>, store: nat -> StoreReply, toolRaises: nat -> bool, f: nat)
    requires f < |events|
    requires forall j :: 0 <= j < f ==> store(j) != Signal(true)
    requires store(f) == Signal(true) && !toolRaises(f)
    ensures Run(events, store, toolRaises, false, f + 1)
            == Trace(Payload(events, f) + [STOPPED] + DataOf(events[f]), 1, f + 1, true, Completed)
  {
    DataUntilSignal(events, store, toolRaises, f);
    StepOnSignal(Run(events, store, toolRaises, false, f), events[f], toolRaises(f));
  }

  /** The first true signal arrives while event f is handled: the result
      after n events, for every n past f. */
  lemma {:induction false} FirstSignalUpTo(events: seq<Event>, store: nat -> StoreReply,
                                           toolRaises: nat -> bool, f: nat, n: nat)
    requires f < n <= |events|
    requires forall j :: 0 <= j < f ==> store(j) != Signal(true)
    requires store(f) == Signal(true)
    requires forall j :: f <= j < n ==> !toolRaises(j)
    ensures Run(events, store, toolRaises, false, n)
            == Trace(Payload(events, f) + StoppedPayload(events, f, n), n - f, f + 1, true, Completed)
    decreases n
  {
    if n == f + 1 {
      FirstStopState(events, store, toolRaises, f);
      assert StoppedPayload(events, f, n) == [STOPPED] + DataOf(events[f]) by {
        assert [] + [STOPPED] == [STOPPED];
      }
    } else {
      FirstSignalUpTo(events, store, toolRaises, f, n - 1);
      StepWhenStopped(Run(events, store, toolRaises, false, n - 1), events[n - 1],
                      store(n - 1), toolRaises(n - 1));
      Reassociate(Payload(events, f), StoppedPayload(events, f, n - 1), [STOPPED], DataOf(events[n - 1]));
    }
  }

  /** The first true signal arrives while event f is handled. Events before f
      yield only their data; from f on, every event yields the marker and then
      its data. The stop tool is called once per event from f to the end, and
      the store is asked once per event up to and including f. */
  lemma FirstSignalAt(events: seq<Event>, store: nat -> StoreReply, toolRaises: nat -> bool, f: nat)
    requires f < |events|
    requires forall j :: 0 <= j < f ==> store(j) != Signal(true)
    requires store(f) == Signal(true)
    requires forall j :: f <= j < |events| ==> !toolRaises(j)
    ensures Run(events, store, toolRaises, false, |events|)
            == Trace(Payload(events, f) + StoppedPayload(events, f, |events|),
                     |events| - f, f + 1, true, Completed)
  {
    FirstSignalUpTo(events, store, toolRaises, f, |events|);
  }

  /** The state right after the first true signal, when the stop tool
      raises. */
  lemma FirstStopRaises(events: seq<Event>, store: nat -> StoreReply, toolRaises: nat -> bool, f: nat)
    requires f < |events|
    requires forall j :: 0 <= j < f ==> store(j) != Signal(true)
    requires store(f) == Signal(true) && toolRaises(f)
    ensures Run(events, store, toolRaises, false, f + 1)
            == Trace(Payload(events, f), 1, f + 1, true, StopToolRaised)
  {
    DataUntilSignal(events, store, toolRaises, f);
    StepOnSignalRaising(Run(events, store, toolRaises, false, f), events[f]);
  }

  /** The stop tool raising while handling the first stop ends the stream
      with its exception: the marker is never yielded, and the events after
      f are never handled. */
  lemma StopToolFailureEndsStream(events: seq<Event>, store: nat -> StoreReply,
                                  toolRaises: nat -> bool, f: nat)
    requires f < |events|
    requires forall j :: 0 <= j < f ==> store(j) != Signal(true)
    requires store(f) == Signal(true)
    requires toolRaises(f)
    ensures Run(events, store, toolRaises, false, |events|)
            == Trace(Payload(events, f), 1, f + 1, true, StopToolRaised)
  {
    FirstStopRaises(events, store, toolRaises, f);
    RaisedIsFinal(events, store, toolRaises, false, f + 1, |events|);
  }

  /** With the flag set after k events, a stop tool that raises at event k
      ends the stream there: nothing more is yielded, one more stop-tool call,
      no further query. */
  lemma RaisesWhileStopped(events: seq<Event>, store: nat -> StoreReply,
                           toolRaises: nat -> bool, flag: bool, k: nat)
    requires k < |events|
    requires Run(events, store, toolRaises, flag, k).stopRequested
    requires Run(events, store, toolRaises, flag, k).outcome == Completed
    requires toolRaises(k)
    ensures var before := Run(events, store, toolRaises, flag, k);
            Run(events, store, toolRaises, flag, |events|)
            == Trace(before.output, before.stopCalls + 1, before.queries, true, StopToolRaised)
  {
    StepWhenStoppedRaising(Run(events, store, toolRaises, flag, k), events[k], store(k));
    RaisedIsFinal(events, store, toolRaises, flag, k + 1, |events|);
  }

  /** The stop tool returns at the first stop (event f) and at every later
      event until it raises at event k. The stream then ends with its
      exception: it has yielded the data before f and the marker and data of
      events f to k - 1, but no marker for event k. */
  lemma StopToolRaisesLater(events: seq<Event>, store: nat -> StoreReply,
                            toolRaises: nat -> bool, f: nat, k: nat)
    requires f < k < |events|
    requires forall j :: 0 <= j < f ==> store(j) != Signal(true)
    requires store(f) == Signal(true)
    requires forall j :: f <= j < k ==> !toolRaises(j)
    requires toolRaises(k)
    ensures Run(events, store, toolRaises, false, |events|)
            == Trace(Payload(events, f) + StoppedPayload(events, f, k), k - f + 1, f + 1, true, StopToolRaised)
  {
    FirstSignalUpTo(events, store, toolRaises, f, k);
    RaisesWhileStopped(events, store, toolRaises, false, k);
  }

  /** A stream on an orchestrator whose flag is already set, where the stop
      tool returns until it raises at event k: the marker and data of events
      before k, then the exception; the store is never asked. */
  lemma StopToolRaisesAfterStop(events: seq<Event>, store: nat -> StoreReply,
                                toolRaises: nat -> bool, k: nat)
    requires k < |events|
    requires forall j :: 0 <= j < k ==> !toolRaises(j)
    requires toolRaises(k)
    ensures Run(events, store, toolRaises, true, |events|)
            == Trace(StoppedPayload(events, 0, k), k + 1, 0, true, StopToolRaised)
  {
    StoppedFrom(events, store, toolRaises, true, 0, k);
    assert [] + StoppedPayload(events, 0, k) == StoppedPayload(events, 0, k);
    RaisesWhileStopped(events, store, toolRaises, true, k);
  }

  // ---------------------------------------------------------------------------
  // Three conversations

  function Chunk(text: string): Event
  {
    Event(Some(text))
  }

  /** No stop signal: the chunks come through unchanged. */
  lemma ConversationWithoutStop()
    ensures var events := [Chunk("Hi"), Chunk(" there")];
            Run(events, _ => Signal(false), _ => false, false, 2).output == ["Hi", " there"]
  {
    var events := [Chunk("Hi"), Chunk(" there")];
    NoSignalYieldsData(events, _ => Signal(false), _ => false);
  }

  /** A stop signal set before the stream starts: the marker is yielded
      before EVERY chunk, and the chunks are still yielded after it. */
  lemma ConversationStoppedBeforeStart()
    ensures var events := [Chunk("Hi"), Chunk(" there")];
            Run(events, _ => Signal(true), _ => false, false, 2).output
            == ["[STOPPED]", "Hi", "[STOPPED]", " there"]
  {
    var events := [Chunk("Hi"), Chunk(" there")];
    FirstSignalAt(events, _ => Signal(true), _ => false, 0);
  }

  /** A stop signal set after two chunks: the third chunk still follows the
      marker. */
  lemma ConversationStoppedAfterTwoChunks()
    ensures var events := [Chunk("Hi"), Chunk(" there"), Chunk("!")];
            Run(events, j => Signal(j >= 2), _ => false, false, 3).output
            == ["Hi", " there", "[STOPPED]", "!"]
  {
    var events := [Chunk("Hi"), Chunk(" there"), Chunk("!")];
    FirstSignalAt(events, j => Signal(j >= 2), _ => false, 2);
  }
}
