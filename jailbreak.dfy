/**
 * The withdrawal confirmation page: a three-step flow (choose a reason, face
 * a behavioural check, confirm) before a withdrawal request for the goal's
 * whole current amount is sent.
 *
 * The page's state hooks `step`, `reason`, `loading` and `impactAnalysis` are
 * fields of a class; the click handlers are its methods. The remote call is
 * split in two: `Proceed` at step 3 returns the request it sends, and
 * `FinishWithdrawal` takes the call's outcome.
 */
module Jailbreak {
  import opened Wrappers

  /** The goal handed to the page. */
  datatype Goal = Goal(id: string, currentAmount: real)

  /** The body sent to the withdrawal service. */
  datatype WithdrawalRequest = WithdrawalRequest(goalId: string, amount: real, reason: string)

  /** The reasons offered at step 1. */
  const Reasons: seq<string> := ["Medical Emergency", "Education Opportunity", "Impulse Purchase", "Other Investment"]

  const GoalsRoute: string := "/goals"

  class JailbreakChallenge {
    var step: int
    var reason: string
    var loading: bool
    var impactAnalysis: string
    /** Where the page navigated to, if anywhere. */
    var navigatedTo: Option<string>
    const goal: Goal

    /**
     * The step stays in 1..3; past step 1 a reason has been chosen; the page
     * is only ever loading at the final step.
     */
    predicate Valid()
      reads this
    {
      && 1 <= step <= 3
      && (step >= 2 ==> reason in Reasons)
      && (step == 1 ==> reason == "" || reason in Reasons)
      && (loading ==> step == 3)
    }

    constructor (goal: Goal)
      ensures Valid()
      ensures step == 1 && reason == "" && !loading && impactAnalysis == ""
      ensures navigatedTo == None && this.goal == goal
    {
      step := 1;
      reason := "";
      loading := false;
      impactAnalysis := "";
      navigatedTo := None;
      this.goal := goal;
    }

    /** `disabled={(step === 1 && !reason) || loading}`, negated. */
    function ProceedEnabled(): (enabled: bool)
      reads this
      ensures enabled <==> !loading && (step != 1 || reason != "")
      ensures Valid() && step >= 2 ==> (enabled <==> !loading)
    {
      !((step == 1 && reason == "") || loading)
    }

    /** The proceed button's text. */
    function ProceedLabel(): (text: string)
      reads this
      ensures loading ==> text == "Processing..."
      ensures !loading ==> (text == "I Accept the Cost - Withdraw" <==> step == 3)
    {
      if loading then "Processing..."
      else if step == 3 then "I Accept the Cost - Withdraw"
      else "Proceed Anyway"
    }

    /** A click on one of the reason buttons, which exist only at step 1. */
    method SelectReason(r: string)
      requires Valid() && step == 1 && r in Reasons
      modifies this
      ensures Valid()
      ensures reason == r && step == old(step) && loading == old(loading)
      ensures impactAnalysis == old(impactAnalysis) && navigatedTo == old(navigatedTo)
      ensures ProceedEnabled()
    {
      reason := r;
    }

    /**
     * `handleProceed`, reachable only while the button is enabled: steps 1 and
     * 2 advance, step 3 starts loading and sends the request.
     */
    method Proceed() returns (request: Option<WithdrawalRequest>)
      requires Valid() && ProceedEnabled()
      modifies this
      ensures Valid()
      ensures old(step) < 3 ==> step == old(step) + 1 && request == None && loading == old(loading)
      ensures old(step) == 3 ==> step == 3 && loading
      ensures old(step) == 3 <==> request.Some?
      ensures request.Some? ==> request.value == WithdrawalRequest(goal.id, goal.currentAmount, reason)
      ensures request.Some? ==> request.value.reason in Reasons
      ensures reason == old(reason) && impactAnalysis == old(impactAnalysis) && navigatedTo == old(navigatedTo)
    {
      if step == 1 {
        step := 2;
        request := None;
      } else if step == 2 {
        step := 3;
        request := None;
      } else {
        loading := true;
        request := Some(WithdrawalRequest(goal.id, goal.currentAmount, reason));
      }
    }

    /**
     * The end of the remote call: on success (`Some(impact)`) record the
     * impact and navigate to the goals list; on failure only report it. Either
     * way `loading` is reset.
     */
    method FinishWithdrawal(outcome: Option<string>)
      requires Valid() && loading
      modifies this
      ensures Valid()
      ensures !loading && step == old(step) && reason == old(reason)
      ensures outcome.Some? ==> impactAnalysis == outcome.value && navigatedTo == Some(GoalsRoute)
      ensures outcome.None? ==> impactAnalysis == old(impactAnalysis) && navigatedTo == old(navigatedTo)
      ensures ProceedEnabled()
    {
      match outcome {
        case Some(impact) =>
          impactAnalysis := impact;
          navigatedTo := Some(GoalsRoute);
        case None =>
      }
      loading := false;
    }

    /** `handleCancel`: back to the goals list; the button is disabled while loading. */
    method Cancel()
      requires Valid() && !loading
      modifies this
      ensures Valid()
      ensures navigatedTo == Some(GoalsRoute)
      ensures step == old(step) && reason == old(reason) && loading == old(loading)
      ensures impactAnalysis == old(impactAnalysis)
    {
      navigatedTo := Some(GoalsRoute);
    }
  }

  /**
   * The proceed button's text and its enabled state agree on a valid page:
   * "Processing..." shows exactly while the request is in flight, and the
   * button is then disabled; the withdrawal label shows only on an enabled
   * button at the final step; at step 1 the button is enabled exactly once a
   * listed reason is chosen.
   */
  lemma ProceedButtonConsistent(page: JailbreakChallenge)
    requires page.Valid()
    ensures page.ProceedLabel() == "Processing..." <==> page.loading
    ensures page.ProceedLabel() == "Processing..." ==> !page.ProceedEnabled()
    ensures page.ProceedLabel() == "I Accept the Cost - Withdraw" ==> page.step == 3 && page.ProceedEnabled()
    ensures page.step == 1 ==> (page.ProceedEnabled() <==> page.reason in Reasons)
  {
  }

  /**
   * The whole flow: a reason, two clicks through the warnings and a third that
   * sends a request for the goal's full amount with that reason.
   */
  method ConfirmFlow(goal: Goal, r: string) returns (request: Option<WithdrawalRequest>)
    requires r in Reasons
    ensures request == Some(WithdrawalRequest(goal.id, goal.currentAmount, r))
  {
    var page := new JailbreakChallenge(goal);
    page.SelectReason(r);
    var first := page.Proceed();
    var second := page.Proceed();
    request := page.Proceed();
  }
}
