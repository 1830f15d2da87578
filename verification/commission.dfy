/** createCommissionUnlock: a pending commission for one milestone of a project. */
module Commissions {
  import opened Numerics

  datatype CommissionStatus = Pending | Confirmed | Paid

  /** The milestone key is an opaque name here. */
  type MilestoneKey = string

  datatype CommissionUnlockInput = CommissionUnlockInput(
    projectId: string,
    agentId: string,
    milestoneKey: MilestoneKey,
    projectGrossValue: real,
    milestonePercent: real)

  datatype CommissionUnlock = CommissionUnlock(
    projectId: string,
    agentId: string,
    milestoneKey: MilestoneKey,
    amount: int,
    status: CommissionStatus)

  /**
   * createCommissionUnlock: the amount is the gross value times the
   * milestone share (a fraction, 0.10 for 10%), rounded to a whole amount.
   */
  function CreateCommissionUnlock(input: CommissionUnlockInput): (c: CommissionUnlock)
    ensures c.projectId == input.projectId && c.agentId == input.agentId && c.milestoneKey == input.milestoneKey
    ensures c.status == Pending
    ensures var exact := input.projectGrossValue * input.milestonePercent;
      exact - 0.5 < c.amount as real <= exact + 0.5
  {
    var amount := Round(input.projectGrossValue * input.milestonePercent);
    RoundIsNearest(input.projectGrossValue * input.milestonePercent);
    CommissionUnlock(input.projectId, input.agentId, input.milestoneKey, amount, Pending)
  }

  /** Non-negative value and share give a non-negative amount; a zero share gives nothing. */
  lemma AmountSign(input: CommissionUnlockInput)
    ensures input.projectGrossValue >= 0.0 && input.milestonePercent >= 0.0 ==> CreateCommissionUnlock(input).amount >= 0
    ensures input.milestonePercent == 0.0 ==> CreateCommissionUnlock(input).amount == 0
  {
    var exact := input.projectGrossValue * input.milestonePercent;
    if input.projectGrossValue >= 0.0 && input.milestonePercent >= 0.0 {
      assert exact >= 0.0;
      RoundMonotone(0.0, exact);
    }
  }

  /** A larger project never earns a smaller commission at the same non-negative share. */
  lemma AmountMonotone(input: CommissionUnlockInput, larger: real)
    requires input.milestonePercent >= 0.0 && input.projectGrossValue <= larger
    ensures CreateCommissionUnlock(input).amount
         <= CreateCommissionUnlock(input.(projectGrossValue := larger)).amount
  {
    var p := input.milestonePercent;
    assert input.projectGrossValue * p <= larger * p;
    RoundMonotone(input.projectGrossValue * p, larger * p);
  }

  /** Rounding each unlock on its own: doubling the value can add anything from one less to one more than double. */
  lemma DoubledValueNearDoubleAmount(input: CommissionUnlockInput)
    ensures var a := CreateCommissionUnlock(input).amount;
      var b := CreateCommissionUnlock(input.(projectGrossValue := 2.0 * input.projectGrossValue)).amount;
      2 * a - 1 <= b <= 2 * a + 1
  {
    var exact := input.projectGrossValue * input.milestonePercent;
    assert (2.0 * input.projectGrossValue) * input.milestonePercent == 2.0 * exact;
    RoundIsNearest(exact);
    RoundIsNearest(2.0 * exact);
  }

  /** ... and it does differ from double: half of a value of 1 rounds to 1, half of 2 is also 1. */
  lemma DoubledValueNotDoubleAmount()
    ensures CreateCommissionUnlock(CommissionUnlockInput("p", "a", "k", 1.0, 0.5)).amount == 1
    ensures CreateCommissionUnlock(CommissionUnlockInput("p", "a", "k", 2.0, 0.5)).amount == 1
  {
    assert Round(0.5) == 1;
    assert Round(1.0) == 1;
  }
}
