/**
 * The scripted claimer the listener's tests run against, its result checks,
 * and the helpers that publish claims on the broker.
 */
module Mock {
  import opened Results
  import opened Events
  import Listener

  datatype ClaimerError = EndError | InternalError | MockError

  /**
   * The mock claimer: a script of results, consumed from the back, one per
   * claim it is handed.
   */
  datatype Claimer = Claimer(results: seq<Result<(), ClaimerError>>)

  /**
   * The shape every mock claimer has: an error first, then only successes.
   * The constructors build it and a successful call keeps it.
   */
  ghost predicate Scripted(m: Claimer)
  {
    && |m.results| > 0
    && m.results[0].Err? && m.results[0].error != InternalError
    && forall i :: 0 < i < |m.results| ==> m.results[i] == Ok(())
  }

  /** A script of `n` successes followed by the error `err`. */
  function Script(err: ClaimerError, n: nat): Claimer
  {
    if n == 0 then Claimer([Err(err)]) else Claimer(Script(err, n - 1).results + [Ok(())])
  }

  lemma {:induction false} ScriptShape(err: ClaimerError, n: nat)
    ensures var m := Script(err, n);
            && |m.results| == n + 1 && m.results[0] == Err(err)
            && forall i :: 0 < i < |m.results| ==> m.results[i] == Ok(())
  {
    if n > 0 {
      ScriptShape(err, n - 1);
    }
  }

  /** `Claimer::new(n)`: processes `n` claims, then fails with `EndError`. */
  function New(n: nat): (m: Claimer)
    ensures Scripted(m) && |m.results| == n + 1 && m.results[0] == Err(EndError)
  {
    ScriptShape(EndError, n);
    Script(EndError, n)
  }

  /** `Claimer::new_with_error(n)`: processes `n` claims, then fails with `MockError`. */
  function NewWithError(n: nat): (m: Claimer)
    ensures Scripted(m) && |m.results| == n + 1 && m.results[0] == Err(MockError)
  {
    ScriptShape(MockError, n);
    Script(MockError, n)
  }

  /**
   * `send_rollups_claim` of the mock: the claim itself is ignored; the last
   * scripted result is removed and returned, with the shortened script as the
   * next claimer on success. An empty script fails with `InternalError`.
   */
  function SendRollupsClaim(m: Claimer, claim: RollupsClaim): (r: Result<Claimer, ClaimerError>)
    ensures m.results == [] ==> r == Err(InternalError)
    ensures m.results != [] ==>
              var last := m.results[|m.results| - 1];
              && (r.Ok? <==> last.Ok?)
              && (r.Ok? ==> m.results == r.value.results + [last])
              && (r.Err? ==> r.error == last.error)
  {
    if m.results == [] then Err(InternalError)
    else
      var last := m.results[|m.results| - 1];
      match last
      case Err(e) => Err(e)
      case Ok(_) => Ok(Claimer(m.results[..|m.results| - 1]))
  }

  /**
   * `send_rollups_claim` of the mock as written: it first computes the
   * script's length minus one as an unsigned subtraction, which fails in a
   * debug build on an empty script, so it can only be called on a non-empty
   * one; `pop` then always finds a result and the `InternalError` meant for
   * the empty script is never produced.
   */
  function SendRollupsClaimAsWritten(m: Claimer, claim: RollupsClaim): (r: Result<Claimer, ClaimerError>)
    requires |m.results| >= 1
    ensures r.Err? ==> m.results[|m.results| - 1] == Err(r.error)
    ensures r.Ok? ==> m.results[|m.results| - 1].Ok? && r.value.results == m.results[..|m.results| - 1]
  {
    var length := |m.results| - 1;
    match m.results[length]
    case Err(e) => Err(e)
    case Ok(_) => Ok(Claimer(m.results[..length]))
  }

  /**
   * The two agree on every script the code as written accepts; the empty
   * script, on which the subtraction underflows, is the one input where the
   * intended behaviour (`InternalError`) differs.
   */
  lemma EmptyScriptUnderflows(m: Claimer, claim: RollupsClaim)
    ensures m.results != [] ==> SendRollupsClaimAsWritten(m, claim) == SendRollupsClaim(m, claim)
    ensures m.results == [] ==> |m.results| - 1 < 0 && SendRollupsClaim(m, claim) == Err(InternalError)
  {
  }

  /**
   * A mock claimer built by `new` or `new_with_error` keeps its shape across
   * successful calls and so never reaches the empty script: `InternalError`
   * is never returned.
   */
  lemma SendKeepsScripted(m: Claimer, claim: RollupsClaim)
    requires Scripted(m)
    ensures var r := SendRollupsClaim(m, claim);
            && (r.Ok? ==> Scripted(r.value) && |r.value.results| == |m.results| - 1)
            && r != Err(InternalError)
  {
  }

  /**
   * A script of `j` successes handed a sequence of claims: the first `j`
   * claims succeed, each leaving one success fewer, and the next one fails
   * with the scripted error.
   */
  lemma {:induction false} ScriptFeed(err: ClaimerError, j: nat, claims: seq<RollupsClaim>)
    ensures Listener.Feed(Script(err, j), claims, SendRollupsClaim)
            == if |claims| <= j then Ok(Script(err, j - |claims|)) else Err(err)
    decreases |claims|
  {
    if claims != [] && j > 0 {
      ScriptFeed(err, j - 1, claims[1..]);
    }
  }

  /** One call on a script of `j` successes: a success leaving `j - 1`, or the scripted error when `j` is 0. */
  lemma SendScript(err: ClaimerError, j: nat, claim: RollupsClaim)
    ensures SendRollupsClaim(Script(err, j), claim) == if j == 0 then Err(err) else Ok(Script(err, j - 1))
  {
  }

  /**
   * What a run of the script must be, given what every run of the listener
   * satisfies: events taken in order, the claimer threaded through the calls,
   * and every exit but waiting a claimer error.
   */
  lemma ScriptOutcome(stream: Stream, k: nat, err: ClaimerError, j: nat,
                      r: Listener.Run<Claimer, ClaimerError>)
    requires stream.failures == map[] && k <= |stream.events|
    requires Listener.RunFacts(stream, k, Script(err, j), SendRollupsClaim, r)
    ensures |r.processed| <= j
    ensures r.claimer == Script(err, j - |r.processed|)
    ensures var events := stream.events;
            k + j < |events| ==>
              r == Listener.Run(events[k..k + j], Some(events[k + j]), CursorAt(events, k + j),
                                Script(err, 0), Listener.Returned(Err(Listener.ClaimerError(err))))
    ensures var events := stream.events;
            k + j >= |events| ==>
              r == Listener.Run(events[k..], None, CursorAt(events, |events|),
                                Script(err, j - (|events| - k)), Listener.Blocking)
  {
    ScriptClaimer(err, j, r);
    if r.rejected.Some? {
      ScriptRejected(stream.events, k, err, j, r);
    } else {
      ScriptWaiting(stream.events, k, err, j, r);
    }
  }

  /** The claimer a script of `j` successes ends with, after the claims of a run. */
  lemma ScriptClaimer(err: ClaimerError, j: nat, r: Listener.Run<Claimer, ClaimerError>)
    requires Listener.Feed(Script(err, j), Listener.Payloads(r.processed), SendRollupsClaim) == Ok(r.claimer)
    ensures |r.processed| <= j && r.claimer == Script(err, j - |r.processed|)
  {
    ScriptFeed(err, j, Listener.Payloads(r.processed));
    Listener.PayloadsLength(r.processed);
  }

  /** `ScriptOutcome` for a run that ended on a rejected event. */
  lemma ScriptRejected(events: seq<Event>, k: nat, err: ClaimerError, j: nat, r: Listener.Run<Claimer, ClaimerError>)
    requires r.rejected.Some?
    requires k + |Listener.Handed(r)| <= |events|
    requires Listener.Handed(r) == events[k..k + |Listener.Handed(r)|]
    requires |r.processed| <= j && r.claimer == Script(err, j - |r.processed|)
    requires r.exit.Returned? && r.exit.result.Err? && r.exit.result.error.ClaimerError?
    requires SendRollupsClaim(r.claimer, r.rejected.value.payload) == Err(r.exit.result.error.source)
    requires r.cursor == (if r.processed == [] then CursorAt(events, k) else r.processed[|r.processed| - 1].id)
    ensures k + j < |events|
    ensures r == Listener.Run(events[k..k + j], Some(events[k + j]), CursorAt(events, k + j),
                              Script(err, 0), Listener.Returned(Err(Listener.ClaimerError(err))))
  {
    var handed := Listener.Handed(r);
    SendScript(err, j - |r.processed|, r.rejected.value.payload);
    assert handed == r.processed + [r.rejected.value];
    assert |r.processed| == j;
    assert r.processed == handed[..j] == events[k..k + j + 1][..j];
    assert events[k..k + j + 1][..j] == events[k..k + j];
    if j > 0 {
      assert r.processed[j - 1] == events[k + j - 1];
    }
  }

  /** `ScriptOutcome` for a run that ended waiting. */
  lemma ScriptWaiting(events: seq<Event>, k: nat, err: ClaimerError, j: nat, r: Listener.Run<Claimer, ClaimerError>)
    requires r.rejected.None? && r.exit == Listener.Blocking
    requires k + |Listener.Handed(r)| <= |events|
    requires Listener.Handed(r) == events[k..k + |Listener.Handed(r)|]
    requires k + |r.processed| == |events|
    requires |r.processed| <= j && r.claimer == Script(err, j - |r.processed|)
    requires r.cursor == (if r.processed == [] then CursorAt(events, k) else r.processed[|r.processed| - 1].id)
    ensures k + j >= |events|
    ensures r == Listener.Run(events[k..], None, CursorAt(events, |events|),
                              Script(err, j - (|events| - k)), Listener.Blocking)
  {
    assert Listener.Handed(r) == r.processed;
    if |r.processed| > 0 {
      assert r.processed[|r.processed| - 1] == events[|events| - 1];
    }
  }

  /**
   * The listener driving a script of `j` successes over a well-formed stream
   * without broker failures, from the cursor of the first `k` events, when
   * the stream holds more than `j` further events: the first `j` are
   * processed, the next one is rejected with the scripted error, and the
   * cursor stays on the last processed event.
   */
  lemma ListenWithScriptRejects(stream: Stream, k: nat, err: ClaimerError, j: nat)
    requires WellFormed(stream.events) && stream.failures == map[] && k + j < |stream.events|
    ensures var events := stream.events;
            Listener.Listen(stream, CursorAt(events, k), Script(err, j), SendRollupsClaim)
            == Listener.Run(events[k..k + j], Some(events[k + j]), CursorAt(events, k + j),
                            Script(err, 0), Listener.Returned(Err(Listener.ClaimerError(err))))
  {
    var r := Listener.Listen(stream, CursorAt(stream.events, k), Script(err, j), SendRollupsClaim);
    Listener.ListenSummary(stream, k, Script(err, j), SendRollupsClaim);
    ScriptOutcome(stream, k, err, j, r);
  }

  /**
   * The same, when the stream holds at most `j` further events: every one of
   * them is processed and the listener waits on the cursor of the last one,
   * with that many successes used up.
   */
  lemma ListenWithScriptWaits(stream: Stream, k: nat, err: ClaimerError, j: nat)
    requires WellFormed(stream.events) && stream.failures == map[] && k <= |stream.events| <= k + j
    ensures var events := stream.events;
            Listener.Listen(stream, CursorAt(events, k), Script(err, j), SendRollupsClaim)
            == Listener.Run(events[k..], None, CursorAt(events, |events|),
                            Script(err, j - (|events| - k)), Listener.Blocking)
  {
    var r := Listener.Listen(stream, CursorAt(stream.events, k), Script(err, j), SendRollupsClaim);
    Listener.ListenSummary(stream, k, Script(err, j), SendRollupsClaim);
    ScriptOutcome(stream, k, err, j, r);
  }

  /** The text of a mock claimer error: the variant's name, as a `Display` derived without a message gives it. */
  function Display(e: ClaimerError): (s: string)
    ensures e.EndError? ==> s == "EndError"
    ensures e.InternalError? ==> s == "InternalError"
    ensures e.MockError? ==> s == "MockError"
  {
    match e
    case EndError => "EndError"
    case InternalError => "InternalError"
    case MockError => "MockError"
  }

  /** Two errors display alike exactly when they are the same variant, so comparing texts compares variants. */
  lemma DisplayInjective(a: ClaimerError, b: ClaimerError)
    ensures Display(a) == Display(b) <==> a == b
  {
    if a != b {
      assert |Display(a)| != |Display(b)|;
    }
  }

  /**
   * `assert_broker_listener_ended`: holds (instead of panicking) exactly
   * when the listener returned the claimer's `EndError`.
   */
  function AssertBrokerListenerEnded(result: Result<(), Listener.BrokerListenerError<ClaimerError>>)
    : (passed: bool)
    ensures passed <==> result == Err(Listener.ClaimerError(EndError))
  {
    match result
    case Ok(_) => false
    case Err(error) => error.ClaimerError? && Display(error.source) == Display(EndError)
  }

  /**
   * `assert_broker_listener_failed`: holds (instead of panicking) exactly
   * when the listener returned the claimer's `MockError`.
   */
  function AssertBrokerListenerFailed(result: Result<(), Listener.BrokerListenerError<ClaimerError>>)
    : (passed: bool)
    ensures passed <==> result == Err(Listener.ClaimerError(MockError))
  {
    match result
    case Ok(_) => false
    case Err(error) => error.ClaimerError? && Display(error.source) == Display(MockError)
  }

  /** The claim the producer helpers publish for an epoch: the default claim with that epoch index. */
  function EpochClaim(epochIndex: nat): (c: RollupsClaim)
    ensures c.epochIndex == epochIndex && c.payload == DefaultClaim.payload
  {
    DefaultClaim.(epochIndex := epochIndex)
  }

  /** The claims carried by `events`, by epoch: event `i` carries the claim of epoch `start + i`. */
  ghost predicate CarriesEpochs(events: seq<Event>, start: nat)
  {
    forall i :: 0 <= i < |events| ==> events[i].payload == EpochClaim(start + i)
  }

  /** Claims for consecutive epochs published one batch after another carry consecutive epochs. */
  lemma CarriesEpochsAppend(a: seq<Event>, b: seq<Event>, start: nat)
    requires CarriesEpochs(a, start) && CarriesEpochs(b, start + |a|)
    ensures CarriesEpochs(a + b, start)
  {
    forall i | 0 <= i < |a + b|
      ensures (a + b)[i].payload == EpochClaim(start + i)
    {
      if i >= |a| {
        assert (a + b)[i] == b[i - |a|];
      }
    }
  }

  /**
   * `produce_rollups_claims`: publishes `n` default claims for epochs
   * `start`, `start + 1`, … at the end of the stream, in that order, and
   * returns them.
   */
  method ProduceRollupsClaims(broker: Broker, n: nat, start: nat) returns (claims: seq<RollupsClaim>)
    requires broker.Valid()
    modifies broker
    ensures broker.Valid()
    ensures |claims| == n && forall i :: 0 <= i < n ==> claims[i] == EpochClaim(start + i)
    ensures |broker.events| == |old(broker.events)| + n
    ensures broker.events[..|old(broker.events)|] == old(broker.events)
    ensures CarriesEpochs(broker.events[|old(broker.events)|..], start)
  {
    ghost var before := broker.events;
    claims := [];
    for i := 0 to n
      invariant broker.Valid()
      invariant |claims| == i && forall j :: 0 <= j < i ==> claims[j] == EpochClaim(start + j)
      invariant |broker.events| == |before| + i
      invariant broker.events[..|before|] == before
      invariant CarriesEpochs(broker.events[|before|..], start)
    {
      var claim := EpochClaim(start + i);
      ghost var published := broker.events[|before|..];
      var id := broker.Produce(claim);
      assert broker.events[|before|..] == published + [Event(id, claim)];
      CarriesEpochsAppend(published, [Event(id, claim)], start);
      claims := claims + [claim];
    }
  }

  /** `produce_last_claim`: publishes the one claim, for epoch `epochIndex`, that the script fails on. */
  method ProduceLastClaim(broker: Broker, epochIndex: nat) returns (claims: seq<RollupsClaim>)
    requires broker.Valid()
    modifies broker
    ensures broker.Valid()
    ensures claims == [EpochClaim(epochIndex)]
    ensures |broker.events| == |old(broker.events)| + 1
    ensures broker.events[..|old(broker.events)|] == old(broker.events)
    ensures broker.events[|old(broker.events)|].payload == EpochClaim(epochIndex)
  {
    claims := ProduceRollupsClaims(broker, 1, epochIndex);
    assert broker.events[|old(broker.events)|..][0] == broker.events[|old(broker.events)|];
  }
}
