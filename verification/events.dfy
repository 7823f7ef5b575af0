/**
 * Rollups claims, the broker events that carry them, and the contract of the
 * ordered event stream the claimer's listener reads from: a blocking read
 * returns the first event whose id is greater than the given cursor.
 */
module Events {
  import opened Results

  /**
   * A claim for one epoch. Only `epochIndex` is inspected by the pipeline;
   * `payload` stands for the claim's remaining fields (the epoch hash and the
   * dapp identity), carried along unchanged.
   */
  datatype RollupsClaim = RollupsClaim(epochIndex: nat, payload: seq<bv8>)

  /** `RollupsClaim::default()`: epoch 0, empty payload. */
  const DefaultClaim: RollupsClaim := RollupsClaim(0, [])

  /** Broker stream ids. Ids assigned by the broker are strictly increasing and above `InitialId`. */
  type EventId = nat

  /** `INITIAL_ID`: the cursor that stands before every event of the stream. */
  const InitialId: EventId := 0

  datatype Event = Event(id: EventId, payload: RollupsClaim)

  /** An error of the broker client, after its own retries have given up. */
  datatype BrokerError = BrokerFailure(reason: string)

  /**
   * What a read of the stream can observe: the events published so far and,
   * for each cursor on which the read fails, the error it fails with.
   */
  datatype Stream = Stream(events: seq<Event>, failures: map<EventId, BrokerError>)

  /** Outcome of one blocking read: an event, no event yet (the read keeps waiting), or an error. */
  datatype Delivery = Delivered(event: Event) | Blocked | Failed(error: BrokerError)

  /** Index of the first event, in stream order, whose id is greater than `lastId`. */
  function FirstAfter(events: seq<Event>, lastId: EventId): nat
  {
    if events == [] then 0
    else if events[0].id > lastId then 0
    else 1 + FirstAfter(events[1..], lastId)
  }

  /** `FirstAfter` is the position of the first event after `lastId`, or the length when there is none. */
  lemma {:induction false} FirstAfterSpec(events: seq<Event>, lastId: EventId)
    ensures var i := FirstAfter(events, lastId);
            && i <= |events|
            && (forall j :: 0 <= j < i ==> events[j].id <= lastId)
            && (i < |events| ==> events[i].id > lastId)
  {
    if events != [] && events[0].id <= lastId {
      FirstAfterSpec(events[1..], lastId);
    }
  }

  /** `consume_blocking(stream, last_id)`: the next event after the cursor `lastId`. */
  function ConsumeBlocking(stream: Stream, lastId: EventId): (d: Delivery)
    ensures d.Failed? <==> lastId in stream.failures
    ensures d.Delivered? ==> d.event in stream.events
  {
    if lastId in stream.failures then Failed(stream.failures[lastId])
    else
      var i := FirstAfter(stream.events, lastId);
      if i < |stream.events| then Delivered(stream.events[i]) else Blocked
  }

  /**
   * A read fails exactly on the cursors the broker fails on, with their
   * error; an event it delivers is in the stream and lies after the cursor;
   * and it waits only when no event of the stream lies after the cursor.
   */
  lemma ConsumeBlockingSpec(stream: Stream, lastId: EventId)
    ensures var d := ConsumeBlocking(stream, lastId);
            && (d.Failed? <==> lastId in stream.failures)
            && (d.Failed? ==> d.error == stream.failures[lastId])
            && (d.Delivered? ==> d.event in stream.events && d.event.id > lastId)
            && (d.Blocked? ==> forall e :: e in stream.events ==> e.id <= lastId)
  {
    FirstAfterSpec(stream.events, lastId);
  }

  /** Number of events a reader positioned at `lastId` has still to read. */
  function Pending(events: seq<Event>, lastId: EventId): nat
  {
    if events == [] then 0
    else (if events[0].id > lastId then 1 else 0) + Pending(events[1..], lastId)
  }

  lemma {:induction false} PendingMonotone(events: seq<Event>, lastId: EventId, laterId: EventId)
    requires lastId <= laterId
    ensures Pending(events, laterId) <= Pending(events, lastId)
  {
    if events != [] {
      PendingMonotone(events[1..], lastId, laterId);
    }
  }

  /** Reading an event and moving the cursor to its id leaves strictly fewer events to read. */
  lemma {:induction false} PendingShrinks(events: seq<Event>, lastId: EventId, e: Event)
    requires e in events && e.id > lastId
    ensures Pending(events, e.id) < Pending(events, lastId)
  {
    if events[0] == e {
      PendingMonotone(events[1..], lastId, e.id);
    } else {
      PendingShrinks(events[1..], lastId, e);
    }
  }

  /** The id at position `i` is larger than the one before it. */
  ghost predicate RisesAt(events: seq<Event>, i: nat)
    requires 0 < i < |events|
  {
    events[i - 1].id < events[i].id
  }

  /** The broker's guarantee on a stream: ids above `InitialId`, each larger than the one before. */
  ghost predicate WellFormed(events: seq<Event>)
  {
    && (|events| > 0 ==> events[0].id > InitialId)
    && (forall i: nat :: 0 < i < |events| ==> RisesAt(events, i))
  }

  /** On a well-formed stream ids strictly increase along the whole stream. */
  lemma {:induction false} IdsIncrease(events: seq<Event>, i: nat, j: nat)
    requires WellFormed(events) && i < j < |events|
    ensures events[i].id < events[j].id
    decreases j - i
  {
    assert RisesAt(events, i + 1);
    if i + 1 < j {
      IdsIncrease(events, i + 1, j);
    }
  }

  /** The cursor of a reader that has consumed exactly the first `k` events. */
  function CursorAt(events: seq<Event>, k: nat): EventId
    requires k <= |events|
  {
    if k == 0 then InitialId else events[k - 1].id
  }

  /**
   * On a well-formed stream, reading with the cursor of the first `k` events
   * returns event `k` (or waits when there is none): events come one at a
   * time, in stream order, without gaps.
   */
  lemma ConsumeInOrder(stream: Stream, k: nat)
    requires WellFormed(stream.events) && k <= |stream.events|
    requires CursorAt(stream.events, k) !in stream.failures
    ensures ConsumeBlocking(stream, CursorAt(stream.events, k))
            == if k < |stream.events| then Delivered(stream.events[k]) else Blocked
  {
    var events := stream.events;
    var i := FirstAfter(events, CursorAt(events, k));
    FirstAfterSpec(events, CursorAt(events, k));
    if i + 1 < k {
      IdsIncrease(events, i, k - 1);
    }
    if 0 < k < |events| {
      assert RisesAt(events, k);
    }
  }

  /** A read that finds an event finds the same one once more events are published after it. */
  lemma ConsumeExtended(stream: Stream, longer: Stream, lastId: EventId)
    requires |stream.events| <= |longer.events| && longer.events[..|stream.events|] == stream.events
    requires longer.failures == stream.failures
    requires !ConsumeBlocking(stream, lastId).Blocked?
    ensures ConsumeBlocking(longer, lastId) == ConsumeBlocking(stream, lastId)
  {
    if lastId !in stream.failures {
      FirstAfterSpec(stream.events, lastId);
      FirstAfterExtended(stream.events, longer.events, lastId);
    }
  }

  lemma {:induction false} FirstAfterExtended(events: seq<Event>, longer: seq<Event>, lastId: EventId)
    requires |events| <= |longer| && longer[..|events|] == events
    requires FirstAfter(events, lastId) < |events|
    ensures FirstAfter(longer, lastId) == FirstAfter(events, lastId)
  {
    assert longer[0] == events[0];
    if events[0].id <= lastId {
      FirstAfterSpec(events, lastId);
      assert longer[1..][..|events| - 1] == events[1..];
      FirstAfterExtended(events[1..], longer[1..], lastId);
    }
  }

  /** The broker as both producer and listener see it: one shared, growing stream. */
  class Broker {
    var events: seq<Event>
    const failures: map<EventId, BrokerError>

    ghost predicate Valid()
      reads this
    {
      WellFormed(events)
    }

    /** What a read can observe right now. */
    function Snapshot(): Stream
      reads this
    {
      Stream(events, failures)
    }

    constructor (failures: map<EventId, BrokerError>)
      ensures Valid() && events == [] && this.failures == failures
    {
      events := [];
      this.failures := failures;
    }

    /** Publishes a claim at the end of the stream under a fresh, larger id. */
    method Produce(claim: RollupsClaim) returns (id: EventId)
      requires Valid()
      modifies this
      ensures Valid()
      ensures id == CursorAt(old(events), |old(events)|) + 1
      ensures events == old(events) + [Event(id, claim)]
    {
      id := CursorAt(events, |events|) + 1;
      events := events + [Event(id, claim)];
      forall i: nat | 0 < i < |events|
        ensures RisesAt(events, i)
      {
        if i < |old(events)| {
          assert RisesAt(old(events), i);
        }
      }
    }
  }
}
