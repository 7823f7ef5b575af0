/**
 * The listener's scenarios: a listener and a producer sharing one broker
 * stream, the listener driving a mock claimer. Each scenario states how the
 * run ends and which claims the claimer processed, in which order.
 */
module ListenerTests {
  import opened Results
  import opened Events
  import Listener
  import opened Mock

  /**
   * `start_broker_listener_with_claims_enqueued`: with five claims and the
   * last one already published, the listener processes the five in order
   * and ends with the claimer's `EndError` on the last one.
   */
  method StartWithClaimsEnqueued() returns (run: Listener.Run<Claimer, ClaimerError>)
    ensures run.exit.Returned? && AssertBrokerListenerEnded(run.exit.result)
    ensures |run.processed| == 5 && CarriesEpochs(run.processed, 0)
    ensures run.rejected.Some? && run.rejected.value.payload == EpochClaim(5)
  {
    var broker := new Broker(map[]);
    var listener := new Listener.DefaultBrokerListener(broker);
    var n := 5;
    var claimer := New(n);
    var _ := ProduceRollupsClaims(broker, n, 0);
    ghost var claims := broker.events;
    var _ := ProduceLastClaim(broker, n);
    ghost var stream := broker.Snapshot();
    run := listener.Start(claimer, SendRollupsClaim);
    ListenWithScriptRejects(stream, 0, EndError, n);
    assert claims[0..] == claims == stream.events[0..n];
  }

  /**
   * `start_broker_listener_with_no_claims_enqueued`: the listener starts on
   * an empty stream and waits; two claims arrive, then five more and the
   * last one. Each wait is a `Start` that returns `Blocking`, and the next
   * `Start` resumes from the cursor and claimer the previous one left. The
   * seven claims are processed in publication order and the run ends with
   * `EndError`, exactly as one uninterrupted run (`whole`) over the final
   * stream (`final`) would.
   */
  method StartWithNoClaimsEnqueued()
    returns (run1: Listener.Run<Claimer, ClaimerError>, run2: Listener.Run<Claimer, ClaimerError>,
             run3: Listener.Run<Claimer, ClaimerError>,
             ghost final: Stream, ghost whole: Listener.Run<Claimer, ClaimerError>)
    ensures run1.exit == Listener.Blocking && run1.processed == []
    ensures run2.exit == Listener.Blocking && |run2.processed| == 2
    ensures run3.exit.Returned? && AssertBrokerListenerEnded(run3.exit.result)
    ensures var all := run1.processed + run2.processed + run3.processed;
            |all| == 7 && CarriesEpochs(all, 0)
    ensures final.failures == map[] && WellFormed(final.events) && |final.events| == 8
    ensures whole == Listener.Listen(final, InitialId, New(7), SendRollupsClaim)
    ensures whole.processed == run1.processed + run2.processed + run3.processed
    ensures whole.exit == run3.exit && whole.rejected == run3.rejected
  {
    var broker := new Broker(map[]);
    var listener := new Listener.DefaultBrokerListener(broker);
    var n := 7;
    var claimer := New(n);

    ghost var s0 := broker.Snapshot();
    run1 := listener.Start(claimer, SendRollupsClaim);

    var x := 2;
    var _ := ProduceRollupsClaims(broker, x, 0);
    ghost var s1 := broker.Snapshot();
    run2 := listener.Start(run1.claimer, SendRollupsClaim);

    var y := 5;
    var _ := ProduceRollupsClaims(broker, y, x);
    ghost var batches := broker.events;
    var _ := ProduceLastClaim(broker, n);
    ghost var s2 := broker.Snapshot();
    run3 := listener.Start(run2.claimer, SendRollupsClaim);

    final := s2;
    whole := Listener.Listen(s2, InitialId, claimer, SendRollupsClaim);
    NoClaimsEnqueuedRuns(s0, s1, batches, s2);
    NoClaimsEnqueuedEpochs(s1, batches);
  }

  /**
   * The stream reasoning behind `StartWithNoClaimsEnqueued`: the three
   * snapshots the listener reads (empty, two claims, seven claims and the
   * last one) and the runs of the loop over them.
   */
  lemma NoClaimsEnqueuedRuns(s0: Stream, s1: Stream, batches: seq<Event>, s2: Stream)
    requires s0 == Stream([], map[]) && s1.failures == map[] && s2.failures == map[]
    requires WellFormed(s1.events) && WellFormed(s2.events)
    requires |s1.events| == 2 && CarriesEpochs(s1.events[0..], 0)
    requires |batches| == 7 && batches[..2] == s1.events && CarriesEpochs(batches[2..], 2)
    requires |s2.events| == 8 && s2.events[..7] == batches
    ensures var r1 := Listener.Listen(s0, InitialId, New(7), SendRollupsClaim);
            var r2 := Listener.Listen(s1, r1.cursor, r1.claimer, SendRollupsClaim);
            var r3 := Listener.Listen(s2, r2.cursor, r2.claimer, SendRollupsClaim);
            var whole := Listener.Listen(s2, InitialId, New(7), SendRollupsClaim);
            && r1.exit == Listener.Blocking && r1.processed == []
            && r2.exit == Listener.Blocking && |r2.processed| == 2
            && r3.exit == Listener.Returned(Err(Listener.ClaimerError(EndError)))
            && r1.processed + r2.processed + r3.processed == batches
            && whole.processed == batches
            && whole.exit == r3.exit && whole.rejected == r3.rejected
  {
    ListenWithScriptWaits(s0, 0, EndError, 7);
    ListenWithScriptWaits(s1, 0, EndError, 7);
    assert CursorAt(s1.events, 2) == CursorAt(s2.events, 2);
    ListenWithScriptRejects(s2, 2, EndError, 5);
    ListenWithScriptRejects(s2, 0, EndError, 7);
    assert s1.events[0..] == s1.events && s2.events[0..7] == batches;
    assert [] + s2.events[0..2] + s2.events[2..7] == s2.events[0..7];
  }

  /** The seven claims of `NoClaimsEnqueuedRuns` carry epochs 0 to 6. */
  lemma NoClaimsEnqueuedEpochs(s1: Stream, batches: seq<Event>)
    requires |s1.events| == 2 && CarriesEpochs(s1.events[0..], 0)
    requires |batches| == 7 && batches[..2] == s1.events && CarriesEpochs(batches[2..], 2)
    ensures CarriesEpochs(batches, 0)
  {
    assert s1.events[0..] == s1.events;
    CarriesEpochsAppend(batches[..2], batches[2..], 0);
    assert batches[..2] + batches[2..] == batches;
  }

  /**
   * `start_broker_listener_and_fail_without_consuming_claims`: a claimer
   * scripted to fail at once rejects the first claim; nothing is processed
   * and the cursor does not move.
   */
  method StartAndFailWithoutConsumingClaims() returns (run: Listener.Run<Claimer, ClaimerError>)
    ensures run.exit.Returned? && AssertBrokerListenerFailed(run.exit.result)
    ensures run.processed == [] && run.cursor == InitialId
    ensures run.rejected.Some? && run.rejected.value.payload == EpochClaim(0)
  {
    var broker := new Broker(map[]);
    var listener := new Listener.DefaultBrokerListener(broker);
    var n := 0;
    var claimer := NewWithError(n);
    var _ := ProduceLastClaim(broker, n);
    ghost var stream := broker.Snapshot();
    run := listener.Start(claimer, SendRollupsClaim);
    ListenWithScriptRejects(stream, 0, MockError, n);
  }

  /**
   * `start_broker_listener_and_fail_after_consuming_some_claims`: a claimer
   * scripted to fail after five claims processes them in order and rejects
   * the sixth with `MockError`, leaving the cursor on the fifth.
   */
  method StartAndFailAfterConsumingSomeClaims() returns (run: Listener.Run<Claimer, ClaimerError>)
    ensures run.exit.Returned? && AssertBrokerListenerFailed(run.exit.result)
    ensures |run.processed| == 5 && CarriesEpochs(run.processed, 0)
    ensures run.cursor == run.processed[4].id
    ensures run.rejected.Some? && run.rejected.value.payload == EpochClaim(5)
  {
    var broker := new Broker(map[]);
    var listener := new Listener.DefaultBrokerListener(broker);
    var n := 5;
    var claimer := NewWithError(n);
    var _ := ProduceRollupsClaims(broker, n, 0);
    ghost var claims := broker.events;
    var _ := ProduceLastClaim(broker, n);
    ghost var stream := broker.Snapshot();
    run := listener.Start(claimer, SendRollupsClaim);
    ListenWithScriptRejects(stream, 0, MockError, n);
    assert claims[0..] == claims == stream.events[0..n];
  }
}
