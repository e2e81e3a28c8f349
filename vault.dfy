/**
 * VaultEngine: the vault as an object whose ledger fields the three entry
 * operations update in place.  Each operation validates everything first,
 * then commits its state change, then performs the outgoing transfer, and
 * undoes the commit when the transfer fails.  Every operation is proved to
 * do what the matching Ledger function says.
 */
module VaultEngine {
  import opened Cheques
  import opened Sums
  import opened Ledger

  class Vault {
    const issuer: Address
    const identity: Address
    const policy: Shortfall
    var balance: nat
    var paidOut: map<Address, nat>
    var totalPaidOut: nat
    /** Every outgoing transfer made so far, in order. */
    ghost var transfers: seq<Transfer>

    /** The ledger state the fields represent. */
    function Snapshot(): State
      reads this
    {
      State(issuer, identity, policy, balance, paidOut, totalPaidOut)
    }

    ghost predicate Valid()
      reads this
    {
      Inv(Snapshot())
    }

    /** A vault drawn on by `issuer`, identified in its cheques as `identity`. */
    constructor (issuer: Address, identity: Address, policy: Shortfall)
      ensures Valid()
      ensures Snapshot() == Init(issuer, identity, policy) && transfers == []
    {
      this.issuer := issuer;
      this.identity := identity;
      this.policy := policy;
      balance := 0;
      paidOut := map[];
      totalPaidOut := 0;
      transfers := [];
    }

    method Deposit(caller: Address, value: nat) returns (status: Status)
      requires Valid()
      modifies this
      ensures Valid()
      ensures var r := Ledger.Deposit(old(Snapshot()), caller, value);
        status == r.status && Snapshot() == r.post && transfers == old(transfers) + r.sent
    {
      balance := balance + value;
      status := Ok;
    }

    method CashChequeBeneficiary(caller: Address, value: nat, recipient: Address, cumulativePayout: nat,
                                 sig: Signature, transferOk: bool) returns (status: Status)
      requires Valid()
      modifies this
      ensures Valid()
      ensures var r := Cash(old(Snapshot()), caller, value, recipient, cumulativePayout, sig, transferOk);
        status == r.status && Snapshot() == r.post && transfers == old(transfers) + r.sent
    {
      if value != 0 {
        return Err(UnexpectedValue);
      }
      if !IssuerSigned(issuer, identity, caller, recipient, cumulativePayout, sig) {
        return Err(InvalidIssuerSignature);
      }
      var already := if caller in paidOut then paidOut[caller] else 0;
      if cumulativePayout <= already {
        return Err(CannotCash);
      }
      var paid := cumulativePayout - already;
      if balance < paid {
        if policy == Reject {
          return Err(InsufficientBalance);
        }
        paid := balance;
      }
      // effects
      var balance0, paidOut0, totalPaidOut0 := balance, paidOut, totalPaidOut;
      TotalUpdate(paidOut, caller, already + paid);
      paidOut := paidOut[caller := already + paid];
      totalPaidOut := totalPaidOut + paid;
      balance := balance - paid;
      // interaction: on failure the whole call reverts
      if !transferOk {
        balance, paidOut, totalPaidOut := balance0, paidOut0, totalPaidOut0;
        return Err(TransferFailed);
      }
      transfers := transfers + [Transfer(recipient, paid)];
      status := Ok;
    }

    method Withdraw(caller: Address, value: nat, amount: nat, transferOk: bool) returns (status: Status)
      requires Valid()
      modifies this
      ensures Valid()
      ensures var r := Ledger.Withdraw(old(Snapshot()), caller, value, amount, transferOk);
        status == r.status && Snapshot() == r.post && transfers == old(transfers) + r.sent
    {
      if value != 0 {
        return Err(UnexpectedValue);
      }
      if caller != issuer {
        return Err(NotIssuer);
      }
      if balance < amount {
        return Err(InsufficientTotalBalance);
      }
      balance := balance - amount;
      if !transferOk {
        balance := balance + amount;
        return Err(TransferFailed);
      }
      transfers := transfers + [Transfer(issuer, amount)];
      status := Ok;
    }

    /** paidOutCheques(b): never more than the total paid out. */
    method PaidOutCheques(b: Address) returns (amount: nat)
      requires Valid()
      ensures amount == PaidOut(Snapshot(), b)
      ensures amount <= totalPaidOut
    {
      amount := if b in paidOut then paidOut[b] else 0;
      PaidOutBelowTotal(Snapshot(), b);
    }

    /** totalPaidOutCheques(): the sum of what every beneficiary was paid. */
    method TotalPaidOutCheques() returns (amount: nat)
      requires Valid()
      ensures amount == Total(paidOut)
    {
      amount := totalPaidOut;
    }

    method Issuer() returns (who: Address)
      ensures who == issuer
    {
      who := issuer;
    }
  }
}
