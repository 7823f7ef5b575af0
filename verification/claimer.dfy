/**
 * The abstract claimer: one claim's state transition. The claimer owns a
 * duplicate checker and a transaction sender, both injected; a step consumes
 * the claimer and returns the next one or an error. The two collaborators are
 * oracles (`Collaborators`), and every call the step makes on them is
 * recorded, so that "no send" and "exactly one send" can be stated.
 */
module Claimer {
  import opened Results
  import opened Events

  datatype AbstractClaimer<D, T> = AbstractClaimer(duplicateChecker: D, transactionSender: T)

  /** Each collaborator's failure, wrapped in its own variant with the cause kept. */
  datatype ClaimerError<DE, TE> =
    | DuplicatedClaimError(checkerSource: DE)
    | TransactionSenderError(senderSource: TE)

  /**
   * The collaborators' behaviour. The checker is queried by reference and is
   * never replaced; the sender is consumed and returns its successor.
   */
  datatype Collaborators<!D, !T, DE, TE> = Collaborators(
    isDuplicatedRollupsClaim: (D, RollupsClaim) -> Result<bool, DE>,
    sendRollupsClaimTransaction: (T, RollupsClaim) -> Result<T, TE>)

  /** One call made on a collaborator, with the collaborator state it was made on. */
  datatype Call<D, T> =
    | CheckDuplicate(checker: D, claim: RollupsClaim)
    | SendTransaction(sender: T, claim: RollupsClaim)

  /** The calls a step made, in order, and what it returned. */
  datatype Step<D, T, DE, TE> = Step(
    calls: seq<Call<D, T>>,
    result: Result<AbstractClaimer<D, T>, ClaimerError<DE, TE>>)

  /** `AbstractClaimer::new`: stores both collaborators as given. */
  function New<D, T>(duplicateChecker: D, transactionSender: T): (c: AbstractClaimer<D, T>)
    ensures c.duplicateChecker == duplicateChecker
    ensures c.transactionSender == transactionSender
  {
    AbstractClaimer(duplicateChecker, transactionSender)
  }

  /** The claims submitted as transactions by a sequence of calls. */
  function Sent<D, T>(calls: seq<Call<D, T>>): seq<RollupsClaim>
  {
    if calls == [] then []
    else (if calls[0].SendTransaction? then [calls[0].claim] else []) + Sent(calls[1..])
  }

  /** The claims checked for duplication by a sequence of calls. */
  function Checked<D, T>(calls: seq<Call<D, T>>): seq<RollupsClaim>
  {
    if calls == [] then []
    else (if calls[0].CheckDuplicate? then [calls[0].claim] else []) + Checked(calls[1..])
  }

  lemma {:induction false} SentAppend<D, T>(a: seq<Call<D, T>>, b: seq<Call<D, T>>)
    ensures Sent(a + b) == Sent(a) + Sent(b)
    ensures Checked(a + b) == Checked(a) + Checked(b)
  {
    if a != [] {
      assert (a + b)[0] == a[0] && (a + b)[1..] == a[1..] + b;
      SentAppend(a[1..], b);
    } else {
      assert a + b == b;
    }
  }

  /** `send_rollups_claim` on an `AbstractClaimer`, with the calls it makes. */
  function Process<D, T, DE, TE>(co: Collaborators<D, T, DE, TE>, c: AbstractClaimer<D, T>,
                                 claim: RollupsClaim): (s: Step<D, T, DE, TE>)
    // the duplicate check comes first, is made once, for this claim, on this claimer's checker
    ensures |s.calls| > 0 && s.calls[0] == CheckDuplicate(c.duplicateChecker, claim)
    ensures Checked(s.calls) == [claim]
    // a transaction is sent, once and for this claim, exactly when the checker answers "not duplicated"
    ensures Sent(s.calls) == if co.isDuplicatedRollupsClaim(c.duplicateChecker, claim) == Ok(false)
                             then [claim] else []
    // the send goes through the claimer's current sender
    ensures forall i :: 0 <= i < |s.calls| && s.calls[i].SendTransaction? ==>
              s.calls[i].sender == c.transactionSender
    // the checker is never replaced
    ensures s.result.Ok? ==> s.result.value.duplicateChecker == c.duplicateChecker
    // a failing check is reported as a duplicate-check error carrying its cause
    ensures co.isDuplicatedRollupsClaim(c.duplicateChecker, claim).Err? ==>
              s.result == Err(DuplicatedClaimError(co.isDuplicatedRollupsClaim(c.duplicateChecker, claim).error))
    // a duplicate leaves the whole claimer as it was
    ensures co.isDuplicatedRollupsClaim(c.duplicateChecker, claim) == Ok(true) ==> s.result == Ok(c)
    // a novel claim: the new claimer holds the sender returned by the send, or the send error is wrapped
    ensures co.isDuplicatedRollupsClaim(c.duplicateChecker, claim) == Ok(false) ==>
              match co.sendRollupsClaimTransaction(c.transactionSender, claim)
              case Ok(t) => s.result == Ok(c.(transactionSender := t))
              case Err(e) => s.result == Err(TransactionSenderError(e))
  {
    var check := CheckDuplicate(c.duplicateChecker, claim);
    match co.isDuplicatedRollupsClaim(c.duplicateChecker, claim)
    case Err(e) => Step([check], Err(DuplicatedClaimError(e)))
    case Ok(true) => Step([check], Ok(c))
    case Ok(false) =>
      var send := SendTransaction(c.transactionSender, claim);
      assert [check, send][1..] == [send] && [send][1..] == [];
      assert Sent([send]) == [claim] && Checked([send]) == [];
      match co.sendRollupsClaimTransaction(c.transactionSender, claim)
      case Err(e) => Step([check, send], Err(TransactionSenderError(e)))
      case Ok(t) => Step([check, send], Ok(c.(transactionSender := t)))
  }

  /** The claimer seen through the `Claimer` interface: only the outcome of a step. */
  function SendRollupsClaim<D, T, DE, TE>(co: Collaborators<D, T, DE, TE>, c: AbstractClaimer<D, T>,
                                          claim: RollupsClaim): (r: Result<AbstractClaimer<D, T>, ClaimerError<DE, TE>>)
    ensures r.Ok? ==> r.value.duplicateChecker == c.duplicateChecker
    ensures co.isDuplicatedRollupsClaim(c.duplicateChecker, claim) == Ok(true) ==> r == Ok(c)
    ensures co.isDuplicatedRollupsClaim(c.duplicateChecker, claim).Err? ==>
              r == Err(DuplicatedClaimError(co.isDuplicatedRollupsClaim(c.duplicateChecker, claim).error))
    ensures co.isDuplicatedRollupsClaim(c.duplicateChecker, claim) == Ok(false) ==>
              match co.sendRollupsClaimTransaction(c.transactionSender, claim)
              case Ok(t) => r == Ok(c.(transactionSender := t))
              case Err(e) => r == Err(TransactionSenderError(e))
  {
    Process(co, c, claim).result
  }

  /** `SendRollupsClaim` with its collaborators fixed, as a value the listener can drive. */
  function AsClaimer<D, T, DE, TE>(co: Collaborators<D, T, DE, TE>)
    : (AbstractClaimer<D, T>, RollupsClaim) -> Result<AbstractClaimer<D, T>, ClaimerError<DE, TE>>
  {
    (c, claim) => SendRollupsClaim(co, c, claim)
  }

  /** Steps over a sequence of claims, each on the claimer the previous one returned, stopping at the first error. */
  function ProcessAll<D, T, DE, TE>(co: Collaborators<D, T, DE, TE>, c: AbstractClaimer<D, T>,
                                    claims: seq<RollupsClaim>): (s: Step<D, T, DE, TE>)
    // no step replaces the checker
    ensures s.result.Ok? ==> s.result.value.duplicateChecker == c.duplicateChecker
    // a run that stopped on an error made at least one call
    ensures s.result.Err? ==> |claims| > 0 && |s.calls| > 0
    decreases |claims|
  {
    if claims == [] then Step([], Ok(c))
    else
      var first := Process(co, c, claims[0]);
      match first.result
      case Err(_) => first
      case Ok(next) =>
        var rest := ProcessAll(co, next, claims[1..]);
        Step(first.calls + rest.calls, rest.result)
  }

  /** The claims among `claims` that the checker reports as not yet submitted. */
  function Novel<D, T, DE, TE>(co: Collaborators<D, T, DE, TE>, checker: D, claims: seq<RollupsClaim>)
    : seq<RollupsClaim>
  {
    if claims == [] then []
    else (if co.isDuplicatedRollupsClaim(checker, claims[0]) == Ok(false) then [claims[0]] else [])
         + Novel(co, checker, claims[1..])
  }

  /**
   * Replaying claims (as after a restart that reset the cursor) submits
   * exactly the claims the checker reports as novel, in order: every claim
   * is checked once, and a claim reported duplicated is never sent again.
   */
  lemma {:induction false} ReplaySubmitsOnlyNovelClaims<D, T, DE, TE>(
    co: Collaborators<D, T, DE, TE>, c: AbstractClaimer<D, T>, claims: seq<RollupsClaim>)
    ensures var s := ProcessAll(co, c, claims);
            s.result.Ok? ==>
              && Checked(s.calls) == claims
              && Sent(s.calls) == Novel(co, c.duplicateChecker, claims)
              && s.result.value.duplicateChecker == c.duplicateChecker
    decreases |claims|
  {
    if claims != [] {
      var first := Process(co, c, claims[0]);
      if first.result.Ok? {
        var next := first.result.value;
        ReplaySubmitsOnlyNovelClaims(co, next, claims[1..]);
        SentAppend(first.calls, ProcessAll(co, next, claims[1..]).calls);
      }
    }
  }

  lemma {:induction false} NovelWhenNoneDuplicated<D, T, DE, TE>(
    co: Collaborators<D, T, DE, TE>, checker: D, claims: seq<RollupsClaim>)
    requires forall i :: 0 <= i < |claims| ==> co.isDuplicatedRollupsClaim(checker, claims[i]) == Ok(false)
    ensures Novel(co, checker, claims) == claims
    decreases |claims|
  {
    if claims != [] {
      NovelWhenNoneDuplicated(co, checker, claims[1..]);
    }
  }

  /**
   * A batch whose first claim is already on chain and whose other claims are
   * novel: when the batch is processed without error, every claim but the
   * first is sent, in order, and the first is not.
   */
  lemma FirstDuplicateIsSkipped<D, T, DE, TE>(
    co: Collaborators<D, T, DE, TE>, c: AbstractClaimer<D, T>, claims: seq<RollupsClaim>)
    requires |claims| > 0
    requires co.isDuplicatedRollupsClaim(c.duplicateChecker, claims[0]) == Ok(true)
    requires forall i :: 1 <= i < |claims| ==> co.isDuplicatedRollupsClaim(c.duplicateChecker, claims[i]) == Ok(false)
    requires ProcessAll(co, c, claims).result.Ok?
    ensures Sent(ProcessAll(co, c, claims).calls) == claims[1..]
  {
    ReplaySubmitsOnlyNovelClaims(co, c, claims);
    NovelWhenNoneDuplicated(co, c.duplicateChecker, claims[1..]);
  }
}
