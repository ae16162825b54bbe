/** The halving of the mining subsidy (`on_finalize` and `trigger_subsidy_halving` of pallets/phala/src/mining.rs). */
module Halving {
  import opened Base
  import opened FixedPoint

  /** `halvings` counts the halvings that fired; no code reads it. */
  datatype Subsidy = Subsidy(
    startBlock: Option<nat>,
    interval: Option<nat>,
    budget: Option<Bits>,
    scheduled: Option<Bits>,
    halvings: nat)

  // 0.75 in U64F64 bits
  const THREE_QUARTERS: Bits := 0xC000_0000_0000_0000

  function Start(s: Subsidy): nat {
    if s.startBlock.Some? then s.startBlock.value else 0
  }

  predicate HalvesAt(s: Subsidy, n: nat)
    requires n >= Start(s)
  {
    s.interval.Some? && s.interval.value > 0 && (n - Start(s)) % s.interval.value == s.interval.value - 1
  }

  /**
    The end of block `n`: a scheduled budget is put in place, then it is halved if it is time. With
    an interval set, the blocks since the start are subtracted, which underflows before the start block.
  */
  function Finalized(s: Subsidy, n: nat): (r: Outcome<Subsidy>)
    ensures r.Ok? <==> s.interval.None? || n >= Start(s)
  {
    var s1 := if s.scheduled.Some? then s.(budget := s.scheduled, scheduled := None) else s;
    if s1.interval.None? then Ok(s1)
    else if n < Start(s1) then Panic
    else if HalvesAt(s1, n) && s1.budget.Some?
    then Ok(s1.(budget := Some(FixMul(s1.budget.value, THREE_QUARTERS)), halvings := s1.halvings + 1))
    else Ok(s1)
  }

  class Tokenomics {
    var startBlock: Option<nat>
    var interval: Option<nat>
    var budgetPerBlock: Option<Bits>
    var scheduledUpdate: Option<Bits>
    ghost var halvings: nat

    ghost function Value(): Subsidy
      reads this
    {
      Subsidy(startBlock, interval, budgetPerBlock, scheduledUpdate, halvings)
    }

    constructor (start: Option<nat>, every: Option<nat>, budget: Option<Bits>)
      ensures Value() == Subsidy(start, every, budget, None, 0)
    {
      startBlock, interval, budgetPerBlock, scheduledUpdate, halvings := start, every, budget, None, 0;
    }

    /** False if no parameters are set. */
    method TriggerSubsidyHalving() returns (ok: bool)
      modifies this`budgetPerBlock, this`halvings
      ensures ok == old(budgetPerBlock).Some?
      ensures !ok ==> Value() == old(Value())
      ensures ok ==> Value() == old(Value()).(budget := Some(FixMul(old(budgetPerBlock).value, THREE_QUARTERS)),
                                              halvings := old(halvings) + 1)
    {
      if budgetPerBlock.None? {
        return false;
      }
      budgetPerBlock := Some(FixMul(budgetPerBlock.value, THREE_QUARTERS));
      halvings := halvings + 1;
      return true;
    }

    method OnFinalize(n: nat) returns (r: Outcome<()>)
      modifies this
      ensures match Finalized(old(Value()), n)
              case Ok(s) => r == Ok(()) && Value() == s
              case _ => r == Panic
    {
      if scheduledUpdate.Some? {
        budgetPerBlock, scheduledUpdate := scheduledUpdate, None;
      }
      if interval.Some? {
        if n < (if startBlock.Some? then startBlock.value else 0) {
          return Panic;
        }
        var elapsed := n - (if startBlock.Some? then startBlock.value else 0);
        if interval.value > 0 && elapsed % interval.value == interval.value - 1 {
          var _ := TriggerSubsidyHalving();
        }
      }
      return Ok(());
    }
  }

  // ---------------------------------------------------------------- a run of blocks

  /** The subsidy after the first `count` blocks from the start block. */
  function AfterBlocks(s: Subsidy, count: nat): Subsidy
    ensures AfterBlocks(s, count).startBlock == s.startBlock && AfterBlocks(s, count).interval == s.interval
  {
    if count == 0 then s else Finalized(AfterBlocks(s, count - 1), Start(s) + count - 1).value
  }

  function HalvedTimes(b: Bits, k: nat): Bits {
    if k == 0 then b else FixMul(HalvedTimes(b, k - 1), THREE_QUARTERS)
  }

  lemma NextQuotient(count: nat, interval: nat)
    requires interval > 0 && count > 0
    ensures count / interval == (count - 1) / interval + if (count - 1) % interval == interval - 1 then 1 else 0
  {
    var q, r := (count - 1) / interval, (count - 1) % interval;
    assert count - 1 == q * interval + r;
    if r == interval - 1 {
      assert count == (q + 1) * interval;
      DivUnique(count, interval, q + 1);
    } else {
      DivUnique(count, interval, q);
    }
  }

  /** The budget there is once a scheduled one is in place. */
  function FirstBudget(s: Subsidy): Option<Bits> {
    if s.scheduled.Some? then s.scheduled else s.budget
  }

  /**
    From the start block on, the first block puts a scheduled budget in place, and the first `count` blocks halve
    that budget exactly count / interval times.
  */
  lemma {:induction false} HalvingsCount(s: Subsidy, count: nat)
    requires s.interval.Some? && s.interval.value > 0 && FirstBudget(s).Some? && s.halvings == 0
    ensures var s' := AfterBlocks(s, count);
      && s'.halvings == count / s.interval.value
      && (count == 0 ==> s' == s)
      && (count > 0 ==> s' == s.(budget := Some(HalvedTimes(FirstBudget(s).value, s'.halvings)), scheduled := None,
                                 halvings := s'.halvings))
  {
    var interval := s.interval.value;
    if count == 0 {
      DivUnique(0, interval, 0);
    } else {
      HalvingsCount(s, count - 1);
      NextQuotient(count, interval);
      FirstQuotient(count, interval);
      hide FixMul;
    }
  }

  lemma FirstQuotient(count: nat, interval: nat)
    requires interval > 0
    ensures count == 1 ==> (count - 1) / interval == 0
  {
    DivUnique(0, interval, 0);
  }

  /** Without an interval or a budget, a block's end only puts a scheduled budget in place. */
  lemma NeverHalves(s: Subsidy, n: nat)
    requires s.interval.None? || (n >= Start(s) && (s.interval.value == 0 || FirstBudget(s).None?))
    ensures Finalized(s, n) == Ok(s.(budget := FirstBudget(s), scheduled := None))
  {
  }

  // ---------------------------------------------------------------- the budget

  function Power(b: nat, k: nat): nat {
    if k == 0 then 1 else b * Power(b, k - 1)
  }

  lemma ThreeQuarters(b: Bits)
    ensures 4 * FixMul(b, THREE_QUARTERS) <= 3 * b < 4 * FixMul(b, THREE_QUARTERS) + 4
  {
  }

  /** `BoundStep` with its products as numbers of their own. */
  lemma BoundProducts(x: nat, y: nat, z: nat, p4: nat)
    requires 4 * x <= 3 * y <= 4 * x + 3 * p4
    requires y <= z < y + 4 * p4
    ensures 4 * x <= 3 * z < 4 * x + 16 * p4
  {
  }

  lemma QuarterProducts(b: nat, next: nat, p4: nat)
    requires 4 * next <= 3 * b < 4 * next + 4
    ensures 4 * (next * p4) <= 3 * (b * p4) <= 4 * (next * p4) + 3 * p4
  {
    MulMono(4 * next, 3 * b, p4);
    MulMono(3 * b, 4 * next + 3, p4);
  }

  lemma Regrouped(next: nat, b: nat, p: nat)
    ensures next * (4 * p) == 4 * (next * p) && b * (3 * p) == 3 * (b * p)
    ensures (next + 4) * (4 * p) == 4 * (next * p) + 16 * p && (b + 4) * p == b * p + 4 * p
  {
  }

  lemma BoundStep(b: nat, next: nat, b0: nat, p3: nat, p4: nat)
    requires 4 * next <= 3 * b < 4 * next + 4
    requires b * p4 <= b0 * p3 < (b + 4) * p4
    ensures next * (4 * p4) <= b0 * (3 * p3) < (next + 4) * (4 * p4)
  {
    QuarterProducts(b, next, p4);
    Regrouped(next, b, p4);
    Regrouped(0, b0, p3);
    BoundProducts(next * p4, b * p4, b0 * p3, p4);
  }

  /** After `k` halvings the budget's bits are at most the initial ones times (3/4)^k, and less than 4 units below. */
  lemma {:induction false} BudgetBounds(b: Bits, k: nat)
    ensures HalvedTimes(b, k) * Power(4, k) <= b * Power(3, k) < (HalvedTimes(b, k) + 4) * Power(4, k)
  {
    if k > 0 {
      BudgetBounds(b, k - 1);
      ThreeQuarters(HalvedTimes(b, k - 1));
      hide FixMul;
      BoundStep(HalvedTimes(b, k - 1), HalvedTimes(b, k), b, Power(3, k - 1), Power(4, k - 1));
    }
  }
}
