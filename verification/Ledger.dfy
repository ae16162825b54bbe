/**
  The accounts: the stake pool's ledger, the staking locks and the free balances, with the
  `Ledger` implementation of pallets/phala/src/stakepool.rs changing them in place.
*/
module Ledger {
  import opened Base
  import opened Pool
  import opened Vault

  /** The accounts of everybody; `slack` is history, as in a `Purse`. */
  datatype Balances = Balances(
    ledger: map<Account, nat>, lock: map<Account, nat>, free: map<Account, nat>, slack: map<Account, nat>)

  function PurseIn(b: Balances, who: Account): Purse {
    Purse(Get(b.ledger, who), Get(b.lock, who), Get(b.free, who), Get(b.slack, who))
  }

  function WithPurse(b: Balances, who: Account, p: Purse): Balances {
    Balances(Put(b.ledger, who, p.ledger), Put(b.lock, who, p.lock),
             Put(b.free, who, p.free), Put(b.slack, who, p.slack))
  }

  predicate Normal(m: map<Account, nat>) {
    forall k :: k in m ==> m[k] > 0
  }

  predicate NormalBalances(b: Balances) {
    Normal(b.ledger) && Normal(b.lock) && Normal(b.free) && Normal(b.slack)
  }

  /** Only one account's purse changed. */
  predicate OnlyPurse(b: Balances, b': Balances, who: Account) {
    b' == WithPurse(b, who, PurseIn(b', who))
  }

  lemma PurseKept(b: Balances, who: Account)
    requires NormalBalances(b)
    ensures OnlyPurse(b, b, who)
  {
  }

  lemma PurseTwice(b: Balances, who: Account, p: Purse, q: Purse)
    ensures WithPurse(WithPurse(b, who, p), who, q) == WithPurse(b, who, q)
  {
  }

  lemma OnlyPurseTransitive(a: Balances, b: Balances, c: Balances, who: Account)
    requires OnlyPurse(a, b, who) && OnlyPurse(b, c, who)
    ensures OnlyPurse(a, c, who)
  {
    PurseTwice(a, who, PurseIn(b, who), PurseIn(c, who));
  }

  class Accounts {
    var stakeLedger: map<Account, nat>
    var locks: map<Account, nat>
    var free: map<Account, nat>
    ghost var slack: map<Account, nat>
    const slasher: Slasher

    /** No entry holds a zero: an account without stake has no entry. */
    ghost predicate Valid()
      reads this
    {
      NormalBalances(Value())
    }

    ghost function Value(): Balances
      reads this
    {
      Balances(stakeLedger, locks, free, slack)
    }

    ghost function PurseOf(who: Account): Purse
      reads this
    {
      PurseIn(Value(), who)
    }

    constructor (slash: Slasher)
      ensures Valid() && Value() == Balances(map[], map[], map[], map[]) && slasher == slash
    {
      stakeLedger, locks, free, slasher := map[], map[], map[], slash;
      slack := map[];
    }

    /** `Currency::slash`: what is removed is up to the currency, within what was asked and is there. */
    method Slash(who: Account, asked: nat) returns (taken: nat)
      requires Valid()
      modifies this
      ensures Valid() && OnlyPurse(old(Value()), Value(), who)
      ensures taken == Taken(slasher, who, asked, old(PurseOf(who)).free)
      ensures PurseOf(who) == old(PurseOf(who)).(free := old(PurseOf(who)).free - taken)
    {
      var balance := Get(free, who);
      taken := Taken(slasher, who, asked, balance);
      free := Put(free, who, balance - taken);
    }

    method UpdateLock(who: Account, amount: nat)
      modifies this`locks
      ensures locks == Put(old(locks), who, amount)
    {
      locks := Put(locks, who, amount);
    }

    method Accrue(who: Account, amount: nat)
      requires Valid()
      modifies this
      ensures Valid() && OnlyPurse(old(Value()), Value(), who)
      ensures PurseOf(who) == LedgerAccrue(old(PurseOf(who)), amount)
    {
      var balance := Get(stakeLedger, who) + amount;
      stakeLedger := Put(stakeLedger, who, balance);
      UpdateLock(who, balance);
    }

    method Reduce(who: Account, amount: nat, dust: nat)
      requires Valid()
      modifies this
      ensures Valid() && OnlyPurse(old(Value()), Value(), who)
      ensures PurseOf(who) == LedgerReduce(old(PurseOf(who)), who, amount, dust, slasher)
    {
      var before := Get(stakeLedger, who);
      var rest: nat := if before >= amount + dust then before - (amount + dust) else 0;
      stakeLedger := Put(stakeLedger, who, rest);
      UpdateLock(who, rest);
      if dust != 0 {
        assert OnlyPurse(old(Value()), Value(), who);
        ghost var b := Value();
        var _ := Slash(who, dust);
        OnlyPurseTransitive(old(Value()), b, Value(), who);
      }
    }

    method Deposit(who: Account, amount: nat)
      requires Valid() && amount > 0
      modifies this
      ensures Valid() && Value() == old(Value()).(free := old(free)[who := Get(old(free), who) + amount])
    {
      free := free[who := Get(free, who) + amount];
    }

    /** A payment that has nothing to do with staking sets the account's free balance. */
    method Pay(who: Account, amount: nat)
      requires Valid()
      modifies this
      ensures Valid() && Value() == old(Value()).(free := Put(old(free), who, amount))
    {
      free := Put(free, who, amount);
    }

    /** Takes note of what a settled slash left on the ledger. */
    ghost method NoteSlack(who: Account, amount: nat)
      requires Valid()
      modifies this`slack
      ensures Valid() && OnlyPurse(old(Value()), Value(), who)
      ensures PurseOf(who) == old(PurseOf(who)).(slack := old(PurseOf(who)).slack + amount)
    {
      slack := Put(slack, who, Get(slack, who) + amount);
    }
  }
}
