/**
 * Scenarios: the behaviours the vault's scenario tree exercises, each run
 * against a fresh Vault object with the same cast: the issuer, alice, bob
 * (the default beneficiary) and carol (the default recipient).  Each
 * scenario holds for either shortfall policy unless it says otherwise.
 */
module Scenarios {
  import opened Cheques
  import opened Ledger
  import opened VaultEngine
  import opened History

  const IssuerAccount: Address := 1
  const Alice: Address := 2
  const Bob: Address := 3
  const Carol: Address := 4
  /** The vault's own identity, which every cheque names. */
  const VaultAccount: Address := 10

  const FirstCumulativePayout: nat := 500
  const DefaultDeposit: nat := 10000

  /** The cheque `signer` signs for `beneficiary`, paying cumulatively `c` to `recipient`. */
  function ChequeBy(signer: Address, beneficiary: Address, recipient: Address, c: nat): Signature
  {
    Sign(signer, Canonical(VaultAccount, beneficiary, recipient, c))
  }

  /** No cheque was ever cashed: any beneficiary and the total report zero. */
  method NothingCashedYet(policy: Shortfall, b: Address) returns (paid: nat, total: nat)
    ensures paid == 0 && total == 0
  {
    var v := new Vault(IssuerAccount, VaultAccount, policy);
    paid := v.PaidOutCheques(b);
    total := v.TotalPaidOutCheques();
  }

  /** The issuer deposits 10000, bob cashes 500 to carol: both queries report 500. */
  method CashedChequeReported(policy: Shortfall) returns (paid: nat, total: nat)
    ensures paid == FirstCumulativePayout && total == FirstCumulativePayout
  {
    var v := new Vault(IssuerAccount, VaultAccount, policy);
    var _ := v.Deposit(IssuerAccount, DefaultDeposit);
    var cheque := ChequeBy(IssuerAccount, Bob, Carol, FirstCumulativePayout);
    ghost var funded := v.Snapshot();
    assert PaidOut(funded, Bob) == 0 && funded.totalPaidOut == 0 && funded.balance == DefaultDeposit;
    CashInFull(funded, Bob, Carol, FirstCumulativePayout, cheque);
    var status := v.CashChequeBeneficiary(Bob, 0, Carol, FirstCumulativePayout, cheque, true);
    assert PaidOut(v.Snapshot(), Bob) == FirstCumulativePayout && v.totalPaidOut == FirstCumulativePayout;
    paid := v.PaidOutCheques(Bob);
    total := v.TotalPaidOutCheques();
  }

  /**
   * The issuer deposits 500 plus `surplus` (50, or 0 for a balance equal to
   * the payout); bob cashes 500 to carol.  The call succeeds, exactly 500
   * goes to carol and `surplus` is left.
   */
  method CashAgainstFunds(policy: Shortfall, surplus: nat) returns (status: Status, left: nat, ghost sent: seq<Transfer>)
    ensures status == Ok && left == surplus
    ensures sent == [Transfer(Carol, FirstCumulativePayout)]
  {
    var v := new Vault(IssuerAccount, VaultAccount, policy);
    var _ := v.Deposit(IssuerAccount, FirstCumulativePayout + surplus);
    status := v.CashChequeBeneficiary(Bob, 0, Carol, FirstCumulativePayout,
                                      ChequeBy(IssuerAccount, Bob, Carol, FirstCumulativePayout), true);
    sent := v.transfers;
    left := v.balance;
  }

  /**
   * Bob cashes 500 against a vault nobody funded.  Under either policy no
   * value leaves and the balance stays zero; the Reject policy fails the call,
   * the PayAvailable policy lets it succeed with nothing paid.
   */
  method CashAgainstEmptyVault(policy: Shortfall) returns (status: Status, left: nat, paid: nat,
                                                          ghost sent: seq<Transfer>)
    ensures left == 0 && paid == 0 && Amount(sent) == 0
    ensures policy == Reject ==> status == Err(InsufficientBalance)
    ensures policy == PayAvailable ==> status == Ok
  {
    var v := new Vault(IssuerAccount, VaultAccount, policy);
    status := v.CashChequeBeneficiary(Bob, 0, Carol, FirstCumulativePayout,
                                      ChequeBy(IssuerAccount, Bob, Carol, FirstCumulativePayout), true);
    sent := v.transfers;
    assert policy == Reject ==> sent == [];
    assert policy == PayAvailable ==> sent == [Transfer(Carol, 0)];
    left := v.balance;
    paid := v.PaidOutCheques(Bob);
  }

  /**
   * After the issuer deposits 10000 and bob cashes 500, presenting the same
   * cheque again fails with CannotCash and changes nothing.
   */
  method ChequePresentedTwice(policy: Shortfall) returns (status: Status, left: nat, paid: nat, total: nat)
    ensures status == Err(CannotCash)
    ensures left == DefaultDeposit - FirstCumulativePayout
    ensures paid == FirstCumulativePayout && total == FirstCumulativePayout
  {
    var v := new Vault(IssuerAccount, VaultAccount, policy);
    var _ := v.Deposit(IssuerAccount, DefaultDeposit);
    var cheque := ChequeBy(IssuerAccount, Bob, Carol, FirstCumulativePayout);
    CashInFull(v.Snapshot(), Bob, Carol, FirstCumulativePayout, cheque);
    CashedChequeRejected(v.Snapshot(), Bob, Carol, FirstCumulativePayout, cheque, true, true);
    var first := v.CashChequeBeneficiary(Bob, 0, Carol, FirstCumulativePayout, cheque, true);
    ghost var cashed := v.Snapshot();
    status := v.CashChequeBeneficiary(Bob, 0, Carol, FirstCumulativePayout, cheque, true);
    assert v.Snapshot() == cashed;
    left := v.balance;
    paid := v.PaidOutCheques(Bob);
    total := v.TotalPaidOutCheques();
  }

  /**
   * Bob cashes 500 to himself against `funds`: it succeeds whenever the
   * funds cover the cheque, and always under the PayAvailable policy.
   */
  method CashToBeneficiary(policy: Shortfall, funds: nat) returns (status: Status, paid: nat,
                                                                 ghost sent: seq<Transfer>)
    ensures funds >= FirstCumulativePayout ==>
      status == Ok && paid == FirstCumulativePayout && sent == [Transfer(Bob, FirstCumulativePayout)]
    ensures policy == PayAvailable ==> status == Ok
  {
    var v := new Vault(IssuerAccount, VaultAccount, policy);
    var _ := v.Deposit(IssuerAccount, funds);
    status := v.CashChequeBeneficiary(Bob, 0, Bob, FirstCumulativePayout,
                                      ChequeBy(IssuerAccount, Bob, Bob, FirstCumulativePayout), true);
    sent := v.transfers;
    paid := v.PaidOutCheques(Bob);
  }

  /**
   * A cash call whose signature does not verify, with any funds in the
   * vault: it fails with InvalidIssuerSignature, pays nothing and leaves the
   * balance as it was.
   */
  method CashWithBadSignature(policy: Shortfall, funds: nat, caller: Address, sig: Signature)
    returns (status: Status, left: nat, paid: nat)
    requires !IssuerSigned(IssuerAccount, VaultAccount, caller, Carol, FirstCumulativePayout, sig)
    ensures status == Err(InvalidIssuerSignature) && left == funds && paid == 0
  {
    var v := new Vault(IssuerAccount, VaultAccount, policy);
    var _ := v.Deposit(IssuerAccount, funds);
    status := v.CashChequeBeneficiary(caller, 0, Carol, FirstCumulativePayout, sig, true);
    assert v.transfers == [];
    left := v.balance;
    paid := v.PaidOutCheques(caller);
  }

  /** The issuer signed 1 but bob submits 500. */
  method CashWithWrongAmountSigned(policy: Shortfall, funds: nat) returns (status: Status)
    ensures status == Err(InvalidIssuerSignature)
  {
    var left, paid;
    status, left, paid := CashWithBadSignature(policy, funds, Bob, ChequeBy(IssuerAccount, Bob, Carol, 1));
  }

  /** Alice, not the issuer, signed bob's cheque. */
  method CashWithForeignSigner(policy: Shortfall, funds: nat) returns (status: Status)
    ensures status == Err(InvalidIssuerSignature)
  {
    var left, paid;
    status, left, paid := CashWithBadSignature(policy, funds, Bob,
                                               ChequeBy(Alice, Bob, Carol, FirstCumulativePayout));
  }

  /** Bob, the beneficiary, signed the cheque himself and alice submits it. */
  method CashSignedByBeneficiary(policy: Shortfall, funds: nat) returns (status: Status)
    ensures status == Err(InvalidIssuerSignature)
  {
    var left, paid;
    status, left, paid := CashWithBadSignature(policy, funds, Alice,
                                               ChequeBy(Bob, Alice, Carol, FirstCumulativePayout));
  }

  /** Value attached to a cash call: it fails whatever the signature and the funds. */
  method CashWithValue(policy: Shortfall, funds: nat, sig: Signature) returns (status: Status, left: nat)
    ensures status == Err(UnexpectedValue) && left == funds
  {
    var v := new Vault(IssuerAccount, VaultAccount, policy);
    var _ := v.Deposit(IssuerAccount, funds);
    status := v.CashChequeBeneficiary(Bob, 1, Carol, FirstCumulativePayout, sig, true);
    left := v.balance;
  }

  /**
   * The issuer deposits 50 plus `surplus` (50, or 0 for a balance equal to
   * the amount) and withdraws 50: it succeeds, 50 goes to the issuer and the
   * cheque totals are untouched.
   */
  method WithdrawAgainstFunds(policy: Shortfall, surplus: nat) returns (status: Status, left: nat, total: nat)
    ensures status == Ok && left == surplus && total == 0
  {
    var v := new Vault(IssuerAccount, VaultAccount, policy);
    var _ := v.Deposit(IssuerAccount, 50 + surplus);
    status := v.Withdraw(IssuerAccount, 0, 50, true);
    assert v.transfers == [Transfer(IssuerAccount, 50)];
    left := v.balance;
    total := v.TotalPaidOutCheques();
  }

  /** The issuer withdraws 50 from an empty vault. */
  method WithdrawFromEmptyVault(policy: Shortfall) returns (status: Status, left: nat)
    ensures status == Err(InsufficientTotalBalance) && left == 0
  {
    var v := new Vault(IssuerAccount, VaultAccount, policy);
    status := v.Withdraw(IssuerAccount, 0, 50, true);
    left := v.balance;
  }

  /** Alice tries to withdraw 50, whatever the funds. */
  method WithdrawByNonIssuer(policy: Shortfall, funds: nat) returns (status: Status, left: nat)
    ensures status == Err(NotIssuer) && left == funds
  {
    var v := new Vault(IssuerAccount, VaultAccount, policy);
    var _ := v.Deposit(IssuerAccount, funds);
    status := v.Withdraw(Alice, 0, 50, true);
    left := v.balance;
  }

  /** Alice attaches value to a withdraw call. */
  method WithdrawWithValue(policy: Shortfall, funds: nat) returns (status: Status, left: nat)
    ensures status == Err(UnexpectedValue) && left == funds
  {
    var v := new Vault(IssuerAccount, VaultAccount, policy);
    var _ := v.Deposit(IssuerAccount, funds);
    status := v.Withdraw(Alice, 1, 50, true);
    left := v.balance;
  }

  /** The issuer deposits 1: the call succeeds and credits it. */
  method DepositNonZero(policy: Shortfall) returns (status: Status, left: nat)
    ensures status == Ok && left == 1
  {
    var v := new Vault(IssuerAccount, VaultAccount, policy);
    status := v.Deposit(IssuerAccount, 1);
    left := v.balance;
  }

  /** issuer() reports the issuer the vault was created with, also after calls. */
  method IssuerReported(policy: Shortfall) returns (before: Address, after: Address)
    ensures before == IssuerAccount && after == IssuerAccount
  {
    var v := new Vault(IssuerAccount, VaultAccount, policy);
    before := v.Issuer();
    var _ := v.Deposit(Alice, DefaultDeposit);
    var _ := v.Withdraw(IssuerAccount, 0, 50, true);
    after := v.Issuer();
  }
}
