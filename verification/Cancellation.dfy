/** cancelFoundryRun: ask Foundry to cancel a run, then wait until it says so. */
module Cancellation {

  /** Foundry's answer to the cancel request (the first) or to a status request. */
  datatype Answer = Cancelled | Ended | Going | Refused

  /** The wait got as far as answer `k`: the run was still going before it, and the caller still there. */
  predicate Reached(answer: nat -> Answer, gone: nat -> bool, k: nat) {
    forall j: nat | j < k :: answer(j).Going? && !gone(j)
  }

  /**
   A turn without a run needs no cancelling. Otherwise this succeeds exactly if Foundry reports the run
   cancelled before it refuses a request, reports another end, or the caller gives up, which it does at `last`.
   */
  method CancelRun(hasRun: bool, answer: nat -> Answer, gone: nat -> bool, ghost last: nat) returns (ok: bool)
    requires gone(last)
    ensures ok <==> !hasRun || exists k: nat :: Reached(answer, gone, k) && answer(k).Cancelled?
  {
    if !hasRun {
      return true;
    }
    var k := 0;
    while true
      invariant k <= last && Reached(answer, gone, k)
      decreases last - k
    {
      match answer(k) {
        case Cancelled => return true;
        case Going =>
        case _ =>
          OnlyOneEnd(answer, gone, k);
          return false;
      }
      if gone(k) {
        OnlyOneEnd(answer, gone, k);
        return false;
      }
      k := k + 1;
    }
  }

  /** Where the wait ends otherwise, it does not succeed later. */
  lemma OnlyOneEnd(answer: nat -> Answer, gone: nat -> bool, k: nat)
    requires Reached(answer, gone, k) && !answer(k).Cancelled? && (!answer(k).Going? || gone(k))
    ensures !exists n: nat :: Reached(answer, gone, n) && answer(n).Cancelled?
  {
    forall n: nat | Reached(answer, gone, n) ensures !answer(n).Cancelled? {
      if n < k {
        assert answer(n).Going?;
      }
    }
  }
}
