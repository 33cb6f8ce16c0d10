/**
 * The savings-goal widget of
 * src/app/features/dashboard/components/goal-progress/goal-progress.component.ts.
 * Only the first goal of the list is shown. The goal form only accepts a
 * target of at least 1 (goal-modal.component.ts:31), so every stored goal
 * has a positive target.
 */
module GoalProgress {
  import opened Wrappers
  import opened Models

  /** `goals()[0]`, absent for an empty list. */
  function ActiveGoal(goals: seq<FinancialGoal>): (g: Option<FinancialGoal>)
    ensures |goals| == 0 <==> g.None?
    ensures |goals| > 0 ==> g == Some(goals[0])
  {
    if |goals| == 0 then None else Some(goals[0])
  }

  /** The shown goal, if any, has a positive target. */
  predicate ValidTargets(goals: seq<FinancialGoal>)
  {
    |goals| == 0 || goals[0].target_amount > 0.0
  }

  function Min(a: real, b: real): real
  {
    if a <= b then a else b
  }

  function Max(a: real, b: real): real
  {
    if a >= b then a else b
  }

  /** `progressPercentage`: the balance as a share of the target, capped at 100. */
  function ProgressPercentage(goals: seq<FinancialGoal>, balance: real): (p: real)
    requires ValidTargets(goals)
    ensures p <= 100.0
    ensures |goals| == 0 ==> p == 0.0
    ensures |goals| > 0 && balance >= goals[0].target_amount ==> p == 100.0
    ensures |goals| > 0 && balance < goals[0].target_amount ==> p * goals[0].target_amount == balance * 100.0
  {
    match ActiveGoal(goals)
    case None => 0.0
    case Some(goal) => Min(balance / goal.target_amount * 100.0, 100.0)
  }

  /** `remainingAmount`: what is still missing, never negative. */
  function RemainingAmount(goals: seq<FinancialGoal>, balance: real): (r: real)
    ensures r >= 0.0
    ensures |goals| == 0 ==> r == 0.0
    ensures |goals| > 0 ==> r == 0.0 || balance + r == goals[0].target_amount
  {
    match ActiveGoal(goals)
    case None => 0.0
    case Some(goal) => Max(0.0, goal.target_amount - balance)
  }

  /**
   * Reaching the target means exactly: nothing remains and progress shows
   * 100; below it, something remains and progress is under 100.
   */
  lemma GoalReached(goals: seq<FinancialGoal>, balance: real)
    requires ValidTargets(goals) && |goals| > 0
    ensures balance >= goals[0].target_amount <==> RemainingAmount(goals, balance) == 0.0
    ensures balance >= goals[0].target_amount <==> ProgressPercentage(goals, balance) == 100.0
  {
    var t := goals[0].target_amount;
    if balance < t {
      var p := ProgressPercentage(goals, balance);
      assert p * t == balance * 100.0;
      assert balance * 100.0 < t * 100.0;
    }
  }

  /** Progress never goes down when the balance grows. */
  lemma ProgressMonotone(goals: seq<FinancialGoal>, b1: real, b2: real)
    requires ValidTargets(goals) && b1 <= b2
    ensures ProgressPercentage(goals, b1) <= ProgressPercentage(goals, b2)
    ensures RemainingAmount(goals, b2) <= RemainingAmount(goals, b1)
  {
    if |goals| > 0 {
      var t := goals[0].target_amount;
      DivMonotone(b1, b2, t);
      assert b1 / t * 100.0 <= b2 / t * 100.0;
    }
  }

  /** Dividing by a positive target keeps the order. */
  lemma DivMonotone(a: real, b: real, t: real)
    requires t > 0.0 && a <= b
    ensures a / t <= b / t
  {
    var qa, qb := a / t, b / t;
    assert qa * t == a && qb * t == b;
    assert (qa - qb) * t == a - b;
  }
}
