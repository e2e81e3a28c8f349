/**
 * Ledger: the vault's state as a value and the three entry operations
 * (deposit, cashChequeBeneficiary, withdraw) as functions from the state
 * before a call to a receipt: the state after it, the value transfers it
 * makes, and whether it succeeded.  This is the specification the Vault
 * class is proved against.
 */
module Ledger {
  import opened Cheques
  import opened Sums

  /**
   * What a cash call does when the delta owed exceeds the balance.  The
   * scenarios leave this open (an empty vault is cashed against with the
   * success expectation), so the vault fixes one of the two at construction:
   * Reject fails the call, PayAvailable pays what the vault holds and records
   * only that much as paid.
   */
  datatype Shortfall = Reject | PayAvailable

  /** One constructor per distinct way a call reverts. */
  datatype Error =
    | UnexpectedValue          // value attached to a call that does not accept it ("revert")
    | InvalidIssuerSignature   // "invalid issuer signature"
    | CannotCash               // "Vault: cannot cash": nothing new to redeem
    | InsufficientBalance      // delta owed exceeds the balance (Reject policy only)
    | NotIssuer                // "not issuer"
    | InsufficientTotalBalance // "totalbalance not sufficient"
    | TransferFailed           // the outgoing value transfer failed

  datatype Status = Ok | Err(error: Error)

  /** An outgoing value transfer. */
  datatype Transfer = Transfer(to: Address, amount: nat)

  /**
   * The ledger: the immutable issuer, vault identity and shortfall policy,
   * the escrowed balance, the cumulative amount paid per beneficiary and the
   * total paid out on cheques.
   */
  datatype State = State(
    issuer: Address,
    vault: Address,
    policy: Shortfall,
    balance: nat,
    paidOut: map<Address, nat>,
    totalPaidOut: nat)

  /** The outcome of one call. */
  datatype Receipt = Receipt(post: State, sent: seq<Transfer>, status: Status)

  /** paidOutCheques(b): what `b` has redeemed so far, zero if never. */
  function PaidOut(s: State, b: Address): nat
  {
    Lookup(s.paidOut, b)
  }

  /** The ledger invariant: the total paid out is the sum of what each beneficiary was paid. */
  ghost predicate Inv(s: State)
  {
    s.totalPaidOut == Total(s.paidOut)
  }

  /** Two states of one vault: the same issuer, identity and policy. */
  predicate SameVault(s: State, t: State)
  {
    s.issuer == t.issuer && s.vault == t.vault && s.policy == t.policy
  }

  /** A failed call: nothing changes and nothing is sent. */
  function Revert(s: State, e: Error): Receipt
  {
    Receipt(s, [], Err(e))
  }

  /** A freshly created vault. */
  function Init(issuer: Address, vault: Address, policy: Shortfall): (s: State)
    ensures Inv(s)
    ensures forall b :: PaidOut(s, b) == 0
    ensures s.totalPaidOut == 0 && s.balance == 0
    ensures s.issuer == issuer && s.vault == vault && s.policy == policy
  {
    State(issuer, vault, policy, 0, map[], 0)
  }

  /** deposit: any caller, any attached value (zero included); the value is credited. */
  function Deposit(s: State, caller: Address, value: nat): (r: Receipt)
    ensures r.status == Ok && r.sent == []
    ensures SameVault(s, r.post) && r.post.paidOut == s.paidOut && r.post.totalPaidOut == s.totalPaidOut
    ensures r.post.balance == s.balance + value
    ensures Inv(s) ==> Inv(r.post)
  {
    Receipt(s.(balance := s.balance + value), [], Ok)
  }

  /** Whether the vault can settle the delta owed on cumulative payout `c` to `b` under its policy. */
  predicate Covered(s: State, b: Address, c: nat)
    requires PaidOut(s, b) < c
  {
    s.policy == PayAvailable || c - PaidOut(s, b) <= s.balance
  }

  /** The amount a cash of cumulative payout `c` by `b` pays: the delta, cut to the balance. */
  function Payout(s: State, b: Address, c: nat): nat
    requires PaidOut(s, b) < c
  {
    var delta := c - PaidOut(s, b);
    if delta <= s.balance then delta else s.balance
  }

  /**
   * cashChequeBeneficiary, called by `caller` (the beneficiary) with `value`
   * attached, paying to `recipient` against cumulative payout `c` signed by
   * `sig`; `transferOk` is whether the outgoing transfer succeeds.
   */
  function Cash(s: State, caller: Address, value: nat, recipient: Address, c: nat, sig: Signature,
                transferOk: bool): (r: Receipt)
    ensures SameVault(s, r.post)
    // every failure is a full revert
    ensures r.status.Err? ==> r.post == s && r.sent == []
    // when the call succeeds
    ensures r.status == Ok <==>
      && value == 0
      && IssuerSigned(s.issuer, s.vault, caller, recipient, c, sig)
      && PaidOut(s, caller) < c
      && Covered(s, caller, c)
      && transferOk
    // which error, in the order the checks run
    ensures value != 0 ==> r.status == Err(UnexpectedValue)
    ensures value == 0 && !IssuerSigned(s.issuer, s.vault, caller, recipient, c, sig) ==>
      r.status == Err(InvalidIssuerSignature)
    ensures value == 0 && IssuerSigned(s.issuer, s.vault, caller, recipient, c, sig) && c <= PaidOut(s, caller) ==>
      r.status == Err(CannotCash)
    ensures (value == 0 && IssuerSigned(s.issuer, s.vault, caller, recipient, c, sig) && PaidOut(s, caller) < c &&
             !Covered(s, caller, c)) ==> r.status == Err(InsufficientBalance)
    ensures (value == 0 && IssuerSigned(s.issuer, s.vault, caller, recipient, c, sig) && PaidOut(s, caller) < c &&
             Covered(s, caller, c) && !transferOk) ==> r.status == Err(TransferFailed)
    ensures r.status == Err(InsufficientBalance) ==> s.policy == Reject && s.balance < c - PaidOut(s, caller)
    // what a success does: one transfer to the recipient, never more than held nor more than owed
    ensures r.status == Ok ==> |r.sent| == 1
    ensures r.status == Ok ==>
      var paid := r.sent[0].amount;
      && r.sent == [Transfer(recipient, paid)]
      && paid <= s.balance
      && PaidOut(s, caller) + paid <= c
      && (c - PaidOut(s, caller) <= s.balance ==> PaidOut(s, caller) + paid == c)
      && (s.balance < c - PaidOut(s, caller) ==> paid == s.balance)
      && r.post.balance == s.balance - paid
      && r.post.totalPaidOut == s.totalPaidOut + paid
      && r.post.paidOut == s.paidOut[caller := PaidOut(s, caller) + paid]
  {
    if value != 0 then Revert(s, UnexpectedValue)
    else if !IssuerSigned(s.issuer, s.vault, caller, recipient, c, sig) then Revert(s, InvalidIssuerSignature)
    else if c <= PaidOut(s, caller) then Revert(s, CannotCash)
    else if !Covered(s, caller, c) then Revert(s, InsufficientBalance)
    else if !transferOk then Revert(s, TransferFailed)
    else
      var paid := Payout(s, caller, c);
      Receipt(
        s.(balance := s.balance - paid,
           paidOut := s.paidOut[caller := PaidOut(s, caller) + paid],
           totalPaidOut := s.totalPaidOut + paid),
        [Transfer(recipient, paid)],
        Ok)
  }

  /**
   * withdraw, called by `caller` with `value` attached, of `amount` to the
   * issuer; `transferOk` is whether the outgoing transfer succeeds.
   */
  function Withdraw(s: State, caller: Address, value: nat, amount: nat, transferOk: bool): (r: Receipt)
    ensures SameVault(s, r.post)
    ensures r.status.Err? ==> r.post == s && r.sent == []
    ensures r.status == Ok <==> value == 0 && caller == s.issuer && amount <= s.balance && transferOk
    ensures value != 0 ==> r.status == Err(UnexpectedValue)
    ensures value == 0 && caller != s.issuer ==> r.status == Err(NotIssuer)
    ensures value == 0 && caller == s.issuer && s.balance < amount ==> r.status == Err(InsufficientTotalBalance)
    ensures value == 0 && caller == s.issuer && amount <= s.balance && !transferOk ==>
      r.status == Err(TransferFailed)
    ensures r.status == Ok ==>
      && r.sent == [Transfer(s.issuer, amount)]
      && r.post.balance == s.balance - amount
      && r.post.paidOut == s.paidOut
      && r.post.totalPaidOut == s.totalPaidOut
  {
    if value != 0 then Revert(s, UnexpectedValue)
    else if caller != s.issuer then Revert(s, NotIssuer)
    else if s.balance < amount then Revert(s, InsufficientTotalBalance)
    else if !transferOk then Revert(s, TransferFailed)
    else Receipt(s.(balance := s.balance - amount), [Transfer(s.issuer, amount)], Ok)
  }

  /** A cash call keeps the invariant: the beneficiary's entry and the total advance by the same amount. */
  lemma {:induction false} CashKeepsInv(s: State, caller: Address, value: nat, recipient: Address, c: nat,
                                        sig: Signature, transferOk: bool)
    requires Inv(s)
    ensures Inv(Cash(s, caller, value, recipient, c, sig, transferOk).post)
  {
    var r := Cash(s, caller, value, recipient, c, sig, transferOk);
    if r.status == Ok {
      TotalUpdate(s.paidOut, caller, PaidOut(s, caller) + r.sent[0].amount);
    }
  }

  /** A withdraw call keeps the invariant. */
  lemma WithdrawKeepsInv(s: State, caller: Address, value: nat, amount: nat, transferOk: bool)
    requires Inv(s)
    ensures Inv(Withdraw(s, caller, value, amount, transferOk).post)
  {
  }

  /** Under the invariant, no beneficiary has been paid more than the total paid out. */
  lemma {:induction false} PaidOutBelowTotal(s: State, b: Address)
    requires Inv(s)
    ensures PaidOut(s, b) <= s.totalPaidOut
  {
    LookupBelowTotal(s.paidOut, b);
  }

  /**
   * A cheque the balance covers, presented with no value and a valid issuer
   * signature, is cashed in full: the recipient gets the whole delta and the
   * caller's record becomes the cheque's amount.
   */
  lemma CashInFull(s: State, caller: Address, recipient: Address, c: nat, sig: Signature)
    requires IssuerSigned(s.issuer, s.vault, caller, recipient, c, sig)
    requires PaidOut(s, caller) < c && c - PaidOut(s, caller) <= s.balance
    ensures var r := Cash(s, caller, 0, recipient, c, sig, true);
      && r.status == Ok
      && r.sent == [Transfer(recipient, c - PaidOut(s, caller))]
      && r.post == s.(balance := s.balance - (c - PaidOut(s, caller)),
                      paidOut := s.paidOut[caller := c],
                      totalPaidOut := s.totalPaidOut + (c - PaidOut(s, caller)))
  {
  }

  /**
   * Idempotent rejection: once a cheque has been cashed in full, presenting
   * the same cheque again fails with CannotCash and changes nothing, whatever
   * the balance and the transfer would do.
   */
  lemma CashedChequeRejected(s: State, caller: Address, recipient: Address, c: nat, sig: Signature,
                             transferOk: bool, transferOk': bool)
    requires Cash(s, caller, 0, recipient, c, sig, transferOk).status == Ok
    requires s.policy == Reject || c - PaidOut(s, caller) <= s.balance
    ensures var t := Cash(s, caller, 0, recipient, c, sig, transferOk).post;
      PaidOut(t, caller) == c && Cash(t, caller, 0, recipient, c, sig, transferOk') == Revert(t, CannotCash)
  {
  }

  /**
   * Signature binding at the ledger level: a cheque the issuer signed for
   * beneficiary `b` cannot be cashed by any other caller.
   */
  lemma ChequeBoundToBeneficiary(s: State, b: Address, other: Address, recipient: Address, c: nat,
                                 transferOk: bool)
    requires other != b
    ensures var sig := Sign(s.issuer, Canonical(s.vault, b, recipient, c));
      Cash(s, other, 0, recipient, c, sig, transferOk) == Revert(s, InvalidIssuerSignature)
  {
  }
}
