/**
 * `pollTransaction` (frontend/app/hooks/useWhistleblowing.ts): every 3 seconds the wallet is
 * asked for the status of a provisional transaction id until the answer is terminal. The
 * timer is replaced by the sequence of answers the successive ticks observe.
 */
module Tracker {
  import opened Wrappers

  /** What one tick observes. */
  datatype Observation =
    | NoStatus                                             // the query gave a falsy value
    | Status(status: string, transactionId: Option<string>) // a status object
    | Throws(error: string)                                // the query threw `error`

  /** How a promise is rejected: with an `Error(message)` or with an error passed through. */
  datatype Failure = ErrorMessage(message: string) | Raised(error: string)

  datatype Outcome = Resolved(transactionId: string) | Rejected(failure: Failure) | StillPending

  /** `status.status === "Accepted" && status.transactionId`: accepted with a non-empty id. */
  predicate AcceptedWithId(o: Observation)
    ensures AcceptedWithId(o) ==> o.Status? && o.transactionId.Some? && |o.transactionId.value| > 0
  {
    o.Status? && o.status == "Accepted" && o.transactionId.Some? && o.transactionId.value != ""
  }

  /** The rule one tick applies; None means "no decision, poll again". */
  function Step(o: Observation): (r: Option<Outcome>)
    ensures r.Some? ==> !r.value.StillPending?
    ensures AcceptedWithId(o) ==> r == Some(Resolved(o.transactionId.value))
    ensures o.Status? && (o.status == "Failed" || o.status == "Aborted") ==>
      r == Some(Rejected(ErrorMessage("Transaction " + o.status)))
    ensures o.Throws? ==> r == Some(Rejected(Raised(o.error)))
    ensures o.NoStatus? ==> r.None?
  {
    match o
    case NoStatus => None
    case Status(status, id) =>
      if AcceptedWithId(o) then Some(Resolved(id.value))
      else if status == "Failed" || status == "Aborted" then Some(Rejected(ErrorMessage("Transaction " + status)))
      else None
    case Throws(e) => Some(Rejected(Raised(e)))
  }

  /** The three ways a tick keeps the tracker pending, and only those. */
  lemma StepPendingCases(o: Observation)
    ensures Step(o).None? <==>
      o.NoStatus?
      || (o.Status? && !AcceptedWithId(o) && o.status != "Failed" && o.status != "Aborted")
  {
  }

  /** The outcome of polling through `obs`, and how many status queries were made. */
  function Track(obs: seq<Observation>): (r: (Outcome, nat))
    ensures r.1 <= |obs|
    ensures r.0.StillPending? ==> r.1 == |obs| && forall k :: 0 <= k < |obs| ==> Step(obs[k]).None?
    ensures !r.0.StillPending? ==>
      (r.1 >= 1 && Step(obs[r.1 - 1]) == Some(r.0)
       && forall k :: 0 <= k < r.1 - 1 ==> Step(obs[k]).None?)
  {
    if obs == [] then (StillPending, 0)
    else
      match Step(obs[0])
      case Some(outcome) => (outcome, 1)
      case None =>
        var rest := Track(obs[1..]);
        (rest.0, rest.1 + 1)
  }

  /**
   * The interval is cleared before every resolve or reject, so answers after a terminal one
   * are never asked for.
   */
  lemma {:induction false} NoQueriesAfterTerminal(obs: seq<Observation>, later: seq<Observation>)
    requires !Track(obs).0.StillPending?
    ensures Track(obs + later) == Track(obs)
  {
    if Step(obs[0]).None? {
      assert (obs + later)[1..] == obs[1..] + later;
      NoQueriesAfterTerminal(obs[1..], later);
    }
  }

  /**
   * Answers that decide nothing, then one that decides: the tracker settles with that answer's
   * outcome after exactly one query more than there were undecided answers.
   */
  lemma {:induction false} DecidedAfterPending(pending: seq<Observation>, decisive: Observation,
                                               later: seq<Observation>)
    requires forall k :: 0 <= k < |pending| ==> Step(pending[k]).None?
    requires Step(decisive).Some?
    ensures Track(pending + [decisive] + later) == (Step(decisive).value, |pending| + 1)
  {
    if pending == [] {
      assert (pending + [decisive] + later)[0] == decisive;
    } else {
      assert (pending + [decisive] + later)[1..] == pending[1..] + [decisive] + later;
      DecidedAfterPending(pending[1..], decisive, later);
    }
  }

  /** There is no timeout: a handle that never turns terminal is polled for as long as it runs. */
  lemma NoTimeout(n: nat)
    ensures Track(seq(n, _ => NoStatus)) == (StillPending, n)
  {
  }

  /** Two answers without a decision then "Accepted" with id tx_42: resolved after three queries. */
  lemma AcceptedAfterTwoPending()
    ensures Track([Status("Pending", None), NoStatus, Status("Accepted", Some("tx_42"))])
            == (Resolved("tx_42"), 3)
  {
    var obs := [Status("Pending", None), NoStatus, Status("Accepted", Some("tx_42"))];
    assert obs[1..][1..] == [Status("Accepted", Some("tx_42"))];
  }

  /**
   * `pollTransaction` with the timer unrolled: each iteration is one tick, and the loop stops
   * once the interval is cleared. StillPending means the answers ran out before a decision.
   */
  method PollTransaction(observations: seq<Observation>) returns (outcome: Outcome, queries: nat)
    ensures (outcome, queries) == Track(observations)
  {
    outcome, queries := StillPending, 0;
    var cleared := false;
    while queries < |observations| && !cleared
      invariant queries <= |observations|
      invariant cleared ==> (outcome, queries) == Track(observations)
      invariant !cleared ==>
        (outcome.StillPending?
         && Track(observations) == (Track(observations[queries..]).0, Track(observations[queries..]).1 + queries))
      decreases |observations| - queries, !cleared
    {
      var tick := observations[queries];
      assert observations[queries..][1..] == observations[queries + 1..];
      queries := queries + 1;
      match Step(tick)
      case Some(decided) =>
        cleared := true;
        outcome := decided;
      case None =>
    }
  }
}
