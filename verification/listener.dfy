/**
 * The broker listener: a loop that reads the next claim after its cursor,
 * hands it to the claimer, stops on the first error, and moves the cursor to
 * the event's id only once the claimer has succeeded. The real loop never
 * ends; here a read that finds nothing after the cursor ends the run with
 * `Blocking`, which stands for "still waiting": `start` has not returned.
 */
module Listener {
  import opened Results
  import opened Events
  import Claimer

  datatype BrokerListenerError<E> =
    | BrokerError(brokerSource: Events.BrokerError)
    | ClaimerError(source: E)

  /** How a run of the loop ends: still waiting for an event, or `start` returned. */
  datatype Exit<E> = Blocking | Returned(result: Result<(), BrokerListenerError<E>>)

  /**
   * A run of the loop: the events the claimer processed successfully, in
   * order; the event it failed on, if it failed; the cursor at the end; the
   * claimer the next iteration would use; and how the run ended.
   */
  datatype Run<C, E> = Run(processed: seq<Event>, rejected: Option<Event>, cursor: EventId,
                           claimer: C, exit: Exit<E>)

  /** Every event whose claim was handed to the claimer, in order. */
  function Handed<C, E>(r: Run<C, E>): seq<Event>
  {
    r.processed + if r.rejected.Some? then [r.rejected.value] else []
  }

  /** The loop of `start`, from cursor `lastId` with claimer `claimer`, against `stream`. */
  function Listen<C, E>(stream: Stream, lastId: EventId, claimer: C,
                        send: (C, RollupsClaim) -> Result<C, E>): (r: Run<C, E>)
    // every way out of the loop is an error
    ensures r.exit.Returned? ==> r.exit.result.Err?
    decreases Pending(stream.events, lastId)
  {
    match ConsumeBlocking(stream, lastId)
    case Failed(e) => Run([], None, lastId, claimer, Returned(Err(BrokerError(e))))
    case Blocked => Run([], None, lastId, claimer, Blocking)
    case Delivered(event) =>
      match send(claimer, event.payload)
      case Err(e) => Run([], Some(event), lastId, claimer, Returned(Err(ClaimerError(e))))
      case Ok(next) =>
        ConsumeBlockingSpec(stream, lastId);
        PendingShrinks(stream.events, lastId, event);
        var rest := Listen(stream, event.id, next, send);
        rest.(processed := [event] + rest.processed)
  }

  /** The claims carried by a sequence of events. */
  function Payloads(events: seq<Event>): seq<RollupsClaim>
  {
    if events == [] then [] else [events[0].payload] + Payloads(events[1..])
  }

  /** One claim per event. */
  lemma {:induction false} PayloadsLength(events: seq<Event>)
    ensures |Payloads(events)| == |events|
  {
    if events != [] {
      PayloadsLength(events[1..]);
    }
  }

  /**
   * Claims handed one after another to a claimer, each call made on the
   * claimer the previous call returned, stopping at the first error.
   */
  function Feed<C, E>(claimer: C, claims: seq<RollupsClaim>, send: (C, RollupsClaim) -> Result<C, E>)
    : (r: Result<C, E>)
    // feeding nothing leaves the claimer as it is
    ensures claims == [] ==> r == Ok(claimer)
    // feeding one claim is exactly one claimer call
    ensures |claims| == 1 ==> r == send(claimer, claims[0])
    decreases |claims|
  {
    if claims == [] then Ok(claimer)
    else
      match send(claimer, claims[0])
      case Err(e) => Err(e)
      case Ok(next) => Feed(next, claims[1..], send)
  }

  /**
   * Feeding two batches in a row is feeding them as one: the second batch
   * starts from the claimer the first returned, and an error in the first
   * stops the feed before the second.
   */
  lemma {:induction false} FeedAppend<C, E>(claimer: C, a: seq<RollupsClaim>, b: seq<RollupsClaim>,
                                            send: (C, RollupsClaim) -> Result<C, E>)
    ensures Feed(claimer, a + b, send) == match Feed(claimer, a, send)
                                          case Ok(c) => Feed(c, b, send)
                                          case Err(e) => Err(e)
    decreases |a|
  {
    if a == [] {
      assert a + b == b;
    } else {
      assert (a + b)[0] == a[0] && (a + b)[1..] == a[1..] + b;
      if send(claimer, a[0]).Ok? {
        FeedAppend(send(claimer, a[0]).value, a[1..], b, send);
      }
    }
  }

  class DefaultBrokerListener {
    const broker: Broker
    var lastClaimId: EventId

    /** `DefaultBrokerListener::new`, once connected: the cursor starts at `INITIAL_ID`. */
    constructor (broker: Broker)
      ensures this.broker == broker
      ensures lastClaimId == InitialId
    {
      this.broker := broker;
      lastClaimId := InitialId;
    }

    /**
     * `start`: runs the loop from the current cursor and reports the run it
     * performed; the cursor field is left where the loop left it.
     */
    method Start<C, E>(claimer: C, send: (C, RollupsClaim) -> Result<C, E>) returns (run: Run<C, E>)
      modifies this
      ensures run == Listen(broker.Snapshot(), old(lastClaimId), claimer, send)
      ensures lastClaimId == run.cursor
    {
      ghost var stream := broker.Snapshot();
      ghost var whole := Listen(stream, lastClaimId, claimer, send);
      var current := claimer;
      var processed: seq<Event> := [];
      while true
        invariant broker.Snapshot() == stream
        invariant var rest := Listen(stream, lastClaimId, current, send);
                  whole == rest.(processed := processed + rest.processed)
        decreases Pending(stream.events, lastClaimId)
      {
        var delivery := ConsumeBlocking(broker.Snapshot(), lastClaimId);
        match delivery {
          case Failed(e) =>
            return Run(processed, None, lastClaimId, current, Returned(Err(BrokerError(e))));
          case Blocked =>
            return Run(processed, None, lastClaimId, current, Blocking);
          case Delivered(event) =>
            var outcome := send(current, event.payload);
            match outcome {
              case Err(e) =>
                return Run(processed, Some(event), lastClaimId, current, Returned(Err(ClaimerError(e))));
              case Ok(next) =>
                current := next;
            }
            processed := processed + [event];
            ConsumeBlockingSpec(stream, lastClaimId);
            PendingShrinks(stream.events, lastClaimId, event);
            lastClaimId := event.id;
        }
      }
    }
  }

  /**
   * `start` never returns `Ok(())`: every way out of the loop is an error,
   * and the claimer failed exactly when the run names a rejected event.
   */
  lemma {:induction false} StartNeverReturnsOk<C, E>(stream: Stream, lastId: EventId, claimer: C,
                                                      send: (C, RollupsClaim) -> Result<C, E>)
    ensures var r := Listen(stream, lastId, claimer, send);
            && (r.exit.Returned? ==> r.exit.result.Err?)
            && (r.rejected.Some? <==> r.exit.Returned? && r.exit.result.Err? && r.exit.result.error.ClaimerError?)
    decreases Pending(stream.events, lastId)
  {
    var d := ConsumeBlocking(stream, lastId);
    if d.Delivered? && send(claimer, d.event.payload).Ok? {
      ConsumeBlockingSpec(stream, lastId);
      PendingShrinks(stream.events, lastId, d.event);
      StartNeverReturnsOk(stream, d.event.id, send(claimer, d.event.payload).value, send);
    }
  }

  /** An iteration that reads an event the claimer accepts: the loop goes on from the event's id. */
  lemma ListenDelivered<C, E>(stream: Stream, lastId: EventId, claimer: C, send: (C, RollupsClaim) -> Result<C, E>,
                              event: Event, next: C)
    requires ConsumeBlocking(stream, lastId) == Delivered(event)
    requires send(claimer, event.payload) == Ok(next)
    ensures var rest := Listen(stream, event.id, next, send);
            Listen(stream, lastId, claimer, send) == rest.(processed := [event] + rest.processed)
  {
  }

  /** An iteration whose read fails: `start` returns the broker's error and the cursor stays. */
  lemma ListenStepFailed<C, E>(stream: Stream, lastId: EventId, claimer: C, send: (C, RollupsClaim) -> Result<C, E>)
    requires lastId in stream.failures
    ensures Listen(stream, lastId, claimer, send)
            == Run([], None, lastId, claimer, Returned(Err(BrokerError(stream.failures[lastId]))))
  {
  }

  /** An iteration on a well-formed stream whose every event has been processed: the loop waits. */
  lemma ListenStepBlocked<C, E>(stream: Stream, claimer: C, send: (C, RollupsClaim) -> Result<C, E>)
    requires WellFormed(stream.events)
    requires CursorAt(stream.events, |stream.events|) !in stream.failures
    ensures var cursor := CursorAt(stream.events, |stream.events|);
            Listen(stream, cursor, claimer, send) == Run([], None, cursor, claimer, Blocking)
  {
    ConsumeInOrder(stream, |stream.events|);
  }

  /**
   * An iteration on a well-formed stream whose claimer fails on event `k`:
   * `start` returns the claimer's error and the cursor stays before event `k`.
   */
  lemma ListenStepRejected<C, E>(stream: Stream, k: nat, claimer: C, send: (C, RollupsClaim) -> Result<C, E>, e: E)
    requires WellFormed(stream.events) && k < |stream.events|
    requires CursorAt(stream.events, k) !in stream.failures
    requires send(claimer, stream.events[k].payload) == Err(e)
    ensures var cursor := CursorAt(stream.events, k);
            Listen(stream, cursor, claimer, send)
            == Run([], Some(stream.events[k]), cursor, claimer, Returned(Err(ClaimerError(e))))
  {
    ConsumeInOrder(stream, k);
  }

  /**
   * A successful iteration on a well-formed stream: the claimer takes event
   * `k` and the loop goes on from its id with the claimer the call returned.
   */
  lemma ListenStepOk<C, E>(stream: Stream, k: nat, claimer: C, send: (C, RollupsClaim) -> Result<C, E>, next: C)
    requires WellFormed(stream.events) && k < |stream.events|
    requires CursorAt(stream.events, k) !in stream.failures
    requires send(claimer, stream.events[k].payload) == Ok(next)
    ensures var rest := Listen(stream, CursorAt(stream.events, k + 1), next, send);
            Listen(stream, CursorAt(stream.events, k), claimer, send)
              == rest.(processed := [stream.events[k]] + rest.processed)
  {
    ConsumeInOrder(stream, k);
  }

  /** The run handed the claimer the events that follow the first `k` of the stream, in stream order and without gaps. */
  ghost predicate HandedFrom<C, E>(events: seq<Event>, k: nat, r: Run<C, E>)
  {
    k + |Handed(r)| <= |events| && Handed(r) == events[k..k + |Handed(r)|]
  }

  /** Handing event `k` before a run that handed the events after it hands the events from `k` on. */
  lemma HandedCons<C, E>(events: seq<Event>, k: nat, r: Run<C, E>, rest: Run<C, E>)
    requires k < |events|
    requires r == rest.(processed := [events[k]] + rest.processed)
    requires HandedFrom(events, k + 1, rest)
    ensures HandedFrom(events, k, r)
  {
    var n := |Handed(rest)|;
    assert Handed(r) == [events[k]] + Handed(rest);
    assert [events[k]] + events[k + 1..k + 1 + n] == events[k..k + 1 + n];
  }

  /** A run that handed nothing handed the (empty) slice after the first `k` events. */
  lemma HandedNone<C, E>(events: seq<Event>, k: nat, r: Run<C, E>)
    requires k <= |events| && r.processed == [] && r.rejected == None
    ensures HandedFrom(events, k, r)
  {
    assert Handed(r) == [] == events[k..k];
  }

  /** A run that processed nothing and rejected event `k` handed exactly that event. */
  lemma HandedOne<C, E>(events: seq<Event>, k: nat, r: Run<C, E>)
    requires k < |events| && r.processed == [] && r.rejected == Some(events[k])
    ensures HandedFrom(events, k, r)
  {
    assert Handed(r) == [events[k]] == events[k..k + 1];
  }

  /**
   * Ordering, on a well-formed stream, from the cursor of the first `k`
   * events: the claimer is handed the next events of the stream, one at a
   * time, in stream order, without gaps, and a failing event is the last one
   * handed.
   */
  lemma {:induction false} ListenInOrder<C, E>(stream: Stream, k: nat, claimer: C,
                                               send: (C, RollupsClaim) -> Result<C, E>)
    requires WellFormed(stream.events) && k <= |stream.events|
    ensures HandedFrom(stream.events, k, Listen(stream, CursorAt(stream.events, k), claimer, send))
    decreases |stream.events| - k
  {
    var events, cursor := stream.events, CursorAt(stream.events, k);
    if cursor !in stream.failures && k < |events| && send(claimer, events[k].payload).Ok? {
      var next := send(claimer, events[k].payload).value;
      ListenStepOk(stream, k, claimer, send, next);
      ListenInOrder(stream, k + 1, next, send);
      HandedCons(events, k, Listen(stream, cursor, claimer, send), Listen(stream, CursorAt(events, k + 1), next, send));
    } else {
      InOrderWhenStopping(stream, k, claimer, send);
    }
  }

  /** `ListenInOrder` for an iteration that ends the run. */
  lemma InOrderWhenStopping<C, E>(stream: Stream, k: nat, claimer: C, send: (C, RollupsClaim) -> Result<C, E>)
    requires WellFormed(stream.events) && k <= |stream.events|
    requires !(CursorAt(stream.events, k) !in stream.failures && k < |stream.events| &&
               send(claimer, stream.events[k].payload).Ok?)
    ensures HandedFrom(stream.events, k, Listen(stream, CursorAt(stream.events, k), claimer, send))
  {
    var events, cursor := stream.events, CursorAt(stream.events, k);
    var r := Listen(stream, cursor, claimer, send);
    if cursor in stream.failures {
      ListenStepFailed(stream, cursor, claimer, send);
      HandedNone(events, k, r);
    } else if k == |events| {
      ListenStepBlocked(stream, claimer, send);
      HandedNone(events, k, r);
    } else {
      ListenStepRejected(stream, k, claimer, send, send(claimer, events[k].payload).error);
      HandedOne(events, k, r);
    }
  }

  /**
   * The cursor: a run leaves it on the id of the last event the claimer
   * processed successfully, or where it was when there is none; never on a
   * failing event.
   */
  lemma {:induction false} ListenCursor<C, E>(stream: Stream, lastId: EventId, claimer: C,
                                              send: (C, RollupsClaim) -> Result<C, E>)
    ensures var r := Listen(stream, lastId, claimer, send);
            r.cursor == if r.processed == [] then lastId else r.processed[|r.processed| - 1].id
    decreases Pending(stream.events, lastId)
  {
    var d := ConsumeBlocking(stream, lastId);
    if d.Delivered? && send(claimer, d.event.payload).Ok? {
      var next := send(claimer, d.event.payload).value;
      ConsumeBlockingSpec(stream, lastId);
      PendingShrinks(stream.events, lastId, d.event);
      ListenCursor(stream, d.event.id, next, send);
      var rest := Listen(stream, d.event.id, next, send);
      if rest.processed != [] {
        assert ([d.event] + rest.processed)[|rest.processed|] == rest.processed[|rest.processed| - 1];
      }
    }
  }

  /**
   * How a run ends: it waits only when no published event lies after its
   * cursor, and a broker failure is the failure of the read from the final
   * cursor.
   */
  lemma {:induction false} ListenExit<C, E>(stream: Stream, lastId: EventId, claimer: C,
                                            send: (C, RollupsClaim) -> Result<C, E>)
    ensures var r := Listen(stream, lastId, claimer, send);
            && (r.exit == Blocking ==> forall e :: e in stream.events ==> e.id <= r.cursor)
            && (r.exit.Returned? && r.exit.result.Err? && r.exit.result.error.BrokerError? ==>
                  r.cursor in stream.failures && r.exit.result.error.brokerSource == stream.failures[r.cursor])
    decreases Pending(stream.events, lastId)
  {
    var d := ConsumeBlocking(stream, lastId);
    ConsumeBlockingSpec(stream, lastId);
    if d.Delivered? && send(claimer, d.event.payload).Ok? {
      PendingShrinks(stream.events, lastId, d.event);
      ListenExit(stream, d.event.id, send(claimer, d.event.payload).value, send);
    }
  }

  /**
   * On a well-formed stream, a reader whose cursor is that of the first `k`
   * events and that sees no event after its cursor has read them all.
   */
  lemma NothingAfterCursor(events: seq<Event>, k: nat)
    requires WellFormed(events) && k <= |events|
    requires forall e :: e in events ==> e.id <= CursorAt(events, k)
    ensures k == |events|
  {
    if k < |events| {
      assert events[k] in events;
      if k > 0 {
        IdsIncrease(events, k - 1, k);
      }
    }
  }

  /**
   * The claimer threading of the loop: each claimer call is made on the
   * claimer the previous call returned. The run ends holding the claimer
   * obtained by feeding the claimer every processed claim in order; when it
   * ended on a claimer failure, that claimer fails on the rejected claim with
   * the error the run reports.
   */
  lemma {:induction false} ListenThreadsClaimer<C, E>(stream: Stream, lastId: EventId, claimer: C,
                                                      send: (C, RollupsClaim) -> Result<C, E>)
    ensures var r := Listen(stream, lastId, claimer, send);
            && Feed(claimer, Payloads(r.processed), send) == Ok(r.claimer)
            && (r.rejected.Some? ==>
                  r.exit.Returned? && r.exit.result.Err? && r.exit.result.error.ClaimerError? &&
                  send(r.claimer, r.rejected.value.payload) == Err(r.exit.result.error.source))
    decreases Pending(stream.events, lastId)
  {
    var d := ConsumeBlocking(stream, lastId);
    if d.Delivered? && send(claimer, d.event.payload).Ok? {
      var next := send(claimer, d.event.payload).value;
      ConsumeBlockingSpec(stream, lastId);
      PendingShrinks(stream.events, lastId, d.event);
      ListenThreadsClaimer(stream, d.event.id, next, send);
      var rest := Listen(stream, d.event.id, next, send);
      assert ([d.event] + rest.processed)[1..] == rest.processed;
    }
  }

  /**
   * What a run `r` of the loop from the cursor of the first `k` events of a
   * well-formed stream satisfies: it hands the claimer the next events in
   * order; the cursor ends on the last event the claimer processed, or stays;
   * the claimer is threaded through the calls; it waits only with every
   * event processed; and it returns only with an error, either the broker's
   * for the final cursor or the claimer's on the rejected event.
   */
  ghost predicate RunFacts<C, E>(stream: Stream, k: nat, claimer: C, send: (C, RollupsClaim) -> Result<C, E>,
                                 r: Run<C, E>)
    requires k <= |stream.events|
  {
    var events := stream.events;
    && k + |Handed(r)| <= |events|
    && Handed(r) == events[k..k + |Handed(r)|]
    && r.cursor == (if r.processed == [] then CursorAt(events, k) else r.processed[|r.processed| - 1].id)
    && Feed(claimer, Payloads(r.processed), send) == Ok(r.claimer)
    && (r.exit == Blocking ==> k + |r.processed| == |events|)
    && (r.exit.Returned? ==> r.exit.result.Err? && (r.exit.result.error.ClaimerError? || r.cursor in stream.failures))
    && (r.rejected.Some? <==> r.exit.Returned? && r.exit.result.Err? && r.exit.result.error.ClaimerError?)
    && (r.rejected.Some? ==> send(r.claimer, r.rejected.value.payload) == Err(r.exit.result.error.source))
  }

  /** Every run of the loop from the cursor of the first `k` events of a well-formed stream satisfies `RunFacts`. */
  lemma ListenSummary<C, E>(stream: Stream, k: nat, claimer: C, send: (C, RollupsClaim) -> Result<C, E>)
    requires WellFormed(stream.events) && k <= |stream.events|
    ensures RunFacts(stream, k, claimer, send, Listen(stream, CursorAt(stream.events, k), claimer, send))
  {
    var events, cursor := stream.events, CursorAt(stream.events, k);
    var r := Listen(stream, cursor, claimer, send);
    StartNeverReturnsOk(stream, cursor, claimer, send);
    ListenInOrder(stream, k, claimer, send);
    ListenCursor(stream, cursor, claimer, send);
    ListenExit(stream, cursor, claimer, send);
    ListenThreadsClaimer(stream, cursor, claimer, send);
    if r.exit == Blocking {
      WaitsAtEnd(events, k, r);
    }
  }

  /** A run that took the events after the first `k` in order, and sees none after its cursor, took them all. */
  lemma WaitsAtEnd<C, E>(events: seq<Event>, k: nat, r: Run<C, E>)
    requires WellFormed(events) && r.rejected.None?
    requires k + |Handed(r)| <= |events| && Handed(r) == events[k..k + |Handed(r)|]
    requires r.cursor == (if r.processed == [] then CursorAt(events, k) else r.processed[|r.processed| - 1].id)
    requires forall e :: e in events ==> e.id <= r.cursor
    ensures k + |r.processed| == |events|
  {
    var n := |r.processed|;
    assert Handed(r) == r.processed;
    assert r.cursor == CursorAt(events, k + n) by {
      if n > 0 {
        assert r.processed[n - 1] == events[k + n - 1];
      }
    }
    NothingAfterCursor(events, k + n);
  }

  /**
   * A loop that is waiting resumes where it stopped: if the run over a
   * stream ends waiting, the run over any extension of that stream (more
   * events published after it, same failures) is the waiting run followed by
   * a run started from its cursor with its claimer.
   */
  lemma {:induction false} ListenResumes<C, E>(stream: Stream, longer: Stream, lastId: EventId, claimer: C,
                                               send: (C, RollupsClaim) -> Result<C, E>)
    requires |stream.events| <= |longer.events| && longer.events[..|stream.events|] == stream.events
    requires longer.failures == stream.failures
    requires Listen(stream, lastId, claimer, send).exit == Blocking
    ensures var r := Listen(stream, lastId, claimer, send);
            var rest := Listen(longer, r.cursor, r.claimer, send);
            Listen(longer, lastId, claimer, send) == rest.(processed := r.processed + rest.processed)
    decreases Pending(stream.events, lastId)
  {
    var d := ConsumeBlocking(stream, lastId);
    if d.Blocked? {
      var rest := Listen(longer, lastId, claimer, send);
      assert [] + rest.processed == rest.processed;
    } else if d.Delivered? && send(claimer, d.event.payload).Ok? {
      var next := send(claimer, d.event.payload).value;
      ConsumeExtended(stream, longer, lastId);
      ConsumeBlockingSpec(stream, lastId);
      PendingShrinks(stream.events, lastId, d.event);
      ListenResumes(stream, longer, d.event.id, next, send);
      ResumeStep(stream, longer, lastId, claimer, send, d.event, next);
    }
  }

  /** The successful-iteration case of `ListenResumes`, from its claim about the next cursor. */
  lemma ResumeStep<C, E>(stream: Stream, longer: Stream, lastId: EventId, claimer: C,
                         send: (C, RollupsClaim) -> Result<C, E>, event: Event, next: C)
    requires ConsumeBlocking(stream, lastId) == Delivered(event)
    requires ConsumeBlocking(longer, lastId) == Delivered(event)
    requires send(claimer, event.payload) == Ok(next)
    requires var r := Listen(stream, event.id, next, send);
             var rest := Listen(longer, r.cursor, r.claimer, send);
             Listen(longer, event.id, next, send) == rest.(processed := r.processed + rest.processed)
    ensures var r := Listen(stream, lastId, claimer, send);
            var rest := Listen(longer, r.cursor, r.claimer, send);
            Listen(longer, lastId, claimer, send) == rest.(processed := r.processed + rest.processed)
  {
    ListenDelivered(stream, lastId, claimer, send, event, next);
    ListenDelivered(longer, lastId, claimer, send, event, next);
    var r := Listen(stream, event.id, next, send);
    PrependComposes(Listen(stream, lastId, claimer, send), r, Listen(longer, lastId, claimer, send),
                    Listen(longer, event.id, next, send), Listen(longer, r.cursor, r.claimer, send), event);
  }

  /** Prepending an event to both runs of a resumption keeps it a resumption. */
  lemma PrependComposes<C, E>(whole: Run<C, E>, r: Run<C, E>, longerWhole: Run<C, E>, longer: Run<C, E>,
                              rest: Run<C, E>, event: Event)
    requires whole == r.(processed := [event] + r.processed)
    requires longerWhole == longer.(processed := [event] + longer.processed)
    requires longer == rest.(processed := r.processed + rest.processed)
    ensures longerWhole == rest.(processed := whole.processed + rest.processed)
  {
    assert [event] + r.processed + rest.processed == [event] + (r.processed + rest.processed);
  }

  /**
   * Feeding claims to an abstract claimer through the listener interface is
   * the sequence of claimer steps: same final claimer, same error.
   */
  lemma {:induction false} FeedIsProcessAll<D, T, DE, TE>(
    co: Claimer.Collaborators<D, T, DE, TE>, c: Claimer.AbstractClaimer<D, T>, claims: seq<RollupsClaim>)
    ensures Feed(c, claims, Claimer.AsClaimer(co)) == Claimer.ProcessAll(co, c, claims).result
    decreases |claims|
  {
    if claims != [] {
      assert Claimer.AsClaimer(co)(c, claims[0]) == Claimer.Process(co, c, claims[0]).result;
      var first := Claimer.Process(co, c, claims[0]);
      if first.result.Ok? {
        FeedIsProcessAll(co, first.result.value, claims[1..]);
      }
    }
  }

  /**
   * The listener driving an abstract claimer submits, over the claims it
   * processed, exactly those the duplicate checker reported as novel, in
   * stream order. Replaying a stream from `INITIAL_ID` after a restart thus
   * sends no claim that the checker reports as already submitted.
   */
  lemma ListenerSubmitsOnlyNovelClaims<D, T, DE, TE>(
    stream: Stream, lastId: EventId, co: Claimer.Collaborators<D, T, DE, TE>, c: Claimer.AbstractClaimer<D, T>)
    ensures var r := Listen(stream, lastId, c, Claimer.AsClaimer(co));
            var steps := Claimer.ProcessAll(co, c, Payloads(r.processed));
            && steps.result == Ok(r.claimer)
            && Claimer.Checked(steps.calls) == Payloads(r.processed)
            && Claimer.Sent(steps.calls) == Claimer.Novel(co, c.duplicateChecker, Payloads(r.processed))
  {
    var r := Listen(stream, lastId, c, Claimer.AsClaimer(co));
    ListenThreadsClaimer(stream, lastId, c, Claimer.AsClaimer(co));
    FeedIsProcessAll(co, c, Payloads(r.processed));
    Claimer.ReplaySubmitsOnlyNovelClaims(co, c, Payloads(r.processed));
  }
}
