# Vault: a verified model of the cheque-cashing escrow ledger

The vault holds value for one issuer. The issuer funds it by deposits. The
issuer also signs cheques off-line. Each cheque gives a beneficiary a
*cumulative* payout: the total that beneficiary may have redeemed so far. A
beneficiary cashes a cheque by calling `cashChequeBeneficiary` itself and
naming a recipient. The vault then pays out only the part of the cheque not
yet redeemed (the *delta*) and records the new cumulative amount. A cheque at
or below the recorded amount cannot be cashed. The issuer, and only the
issuer, may withdraw what is left. Neither of these two calls accepts
attached value.

The repository's behaviour is fixed by its scenario tree,
`test/Vault.behavior.js`. The contract it drives is not part of this model,
and neither are the helpers in `test/Vault.should.js`. This project models
the behaviour those scenarios check:

- `cheques.dfy` (`Cheques`): the cheque message, meaning vault identity,
  beneficiary, recipient and cumulative payout. It also holds an abstract
  signature check: a signature is valid iff the issuer made it over exactly
  the message built from the call's own parameters, with the caller as the
  beneficiary.
- `sums.dfy` (`Sums`): the per-beneficiary record as a map that reads zero
  for a key never written, and the sum of its entries.
- `ledger.dfy` (`Ledger`): the ledger state as a value, with each entry
  operation as a function from a state to a receipt. A receipt holds the new
  state, the transfers made and the status. These functions are the
  specification.
- `history.dfy` (`History`): any sequence of calls, run in order. It proves
  the invariant, monotonicity and conservation properties that hold across
  calls.
- `vault.dfy` (`VaultEngine`): the class `Vault`. Its fields `balance`,
  `paidOut` and `totalPaidOut` are updated in place by `Deposit`,
  `CashChequeBeneficiary` and `Withdraw`. Each method is proved to produce
  the state, status and transfers of the matching `Ledger` function. Each
  keeps `Valid()`, which says `totalPaidOut` is the sum of `paidOut`. The
  methods follow checks, then effects, then interaction: they validate,
  commit the new state, then transfer, and they restore the old state when
  the transfer fails.
- `scenarios.dfy` (`Scenarios`): each branch of the scenario tree, run as a
  client of `Vault` with the same cast: issuer, alice, bob (the default
  beneficiary) and carol (the default recipient). The amounts are the
  tree's own: 500, 10000, 50, 1.

Decisions the scenario tree leaves open:

- **Cashing more than the balance.** `test/Vault.behavior.js:110-114`
  cashes 500 against a vault that received no deposit, and it uses the
  *success* helper. An all-or-nothing reading would reject that call. The
  file does not settle which behaviour is right, so the vault fixes a
  `Shortfall` policy when it is created:
  - `Reject` fails with `InsufficientBalance`.
  - `PayAvailable` pays `min(delta, balance)` and advances the
    beneficiary's record by only the amount paid.

  Every general property is proved for both policies. These include: the
  balance never goes negative, a payment never exceeds the balance held
  before the call, and value is conserved. A result that differs between
  the policies is stated conditionally on the policy.
- **The other unfunded context.** `test/Vault.behavior.js:130-136` (the
  "recipient is the beneficiary" context) also makes no deposit of its own.
  `Scenarios.CashToBeneficiary` therefore takes the funds as a parameter. It
  proves success when the funds cover the cheque, and always under
  `PayAvailable`.
- **Check order.** The checks run in this order: attached value, signature,
  monotonicity, balance, transfer. The value check comes first because the
  value guard is a precondition of the call itself: a call that does not
  accept value is refused before any of its own checks runs. The tree's
  expected messages agree. At lines 157-167, a cheque signed by alice is
  expected to fail with the generic "revert". At lines 220-225, alice's
  withdraw is expected to fail the same way. The tree does not show, though,
  that the later checks did not fire: a generic "revert" expectation matches
  any revert.

## Model

| member | source | states |
|---|---|---|
| Cheques.CanonicalInjective | test/Vault.behavior.js:138-145 | two cheques with the same signed message agree on vault, beneficiary, recipient and amount, so a signature over one amount says nothing about another |
| Cheques.SignatureBinding | test/Vault.behavior.js:138-155 | an issuer signature verifies for exactly one (vault, beneficiary, recipient, amount) tuple |
| Cheques.ForeignSignerRejected | test/Vault.behavior.js:147-155 | a signature by anyone other than the issuer never verifies, whatever it signs |
| Ledger.Init | test/Vault.behavior.js:48-53 | a fresh vault reports zero paid out for every beneficiary, a zero total and a zero balance, and satisfies the ledger invariant |
| Ledger.Deposit | test/Vault.behavior.js:229-236 | a deposit by any caller of any value always succeeds, credits exactly that value, sends nothing and leaves the cheque records alone |
| Ledger.Cash | test/Vault.behavior.js:77-182 | success iff no value is attached, the issuer signed (vault, caller, recipient, amount), the amount exceeds the caller's record, the policy covers the delta and the transfer goes through; each failure names the first failed check (UnexpectedValue, InvalidIssuerSignature, CannotCash, InsufficientBalance, TransferFailed, in that order) and reverts completely; a success sends one transfer to the recipient that never exceeds the old balance or the delta, equals the delta whenever the balance covers it, and equals the whole balance when it does not; the balance falls and the caller's record and the total rise by exactly the amount paid |
| Ledger.CashInFull | test/Vault.behavior.js:90-108 | a cheque the balance covers, presented with no value and the issuer's signature, succeeds: the recipient gets the whole delta, the caller's record becomes the cheque's amount, and the balance and the total move by the delta |
| Ledger.Withdraw | test/Vault.behavior.js:184-227 | success iff no value is attached, the caller is the issuer, the amount is at most the balance and the transfer goes through; attached value, a non-issuer, a short balance and a failed transfer fail with their own errors, in that order, and revert completely; a success sends exactly the amount to the issuer, lowers the balance by it and leaves the cheque records unchanged |
| Ledger.CashKeepsInv | test/Vault.behavior.js:55-64 | cashing keeps the total paid out equal to the sum of the per-beneficiary records |
| Ledger.WithdrawKeepsInv | test/Vault.behavior.js:186-208 | withdrawing keeps the total paid out equal to the sum of the per-beneficiary records |
| Ledger.PaidOutBelowTotal | test/Vault.behavior.js:60-64 | under the invariant, no beneficiary's record exceeds the total paid out |
| Ledger.CashedChequeRejected | test/Vault.behavior.js:117-128 | after a cheque is cashed in full, the caller's record equals its amount, and presenting it again fails with CannotCash and changes nothing, whatever the transfer would do |
| Ledger.ChequeBoundToBeneficiary | test/Vault.behavior.js:169-180 | an issuer cheque made out to one beneficiary, submitted by any other caller, fails with InvalidIssuerSignature and changes nothing |
| History.RunKeepsInv | test/Vault.behavior.js:44-239 | every sequence of deposit, cash and withdraw calls keeps the ledger invariant, the issuer, the vault identity and the policy |
| History.RunPaidOutMonotone | test/Vault.behavior.js:117-128 | across any sequence of calls, in any arrival order, no beneficiary's record and not the total paid out ever decreases |
| History.RunConservesValue | test/Vault.behavior.js:90-114 | across any sequence of calls, the final balance plus everything sent equals the starting balance plus everything deposited, so nothing is paid that was not put in |
| History.RunCashPaysTotal | test/Vault.behavior.js:55-64 | across any sequence of deposits and cash calls, the value sent equals the rise in the total paid out |
| VaultEngine.Vault.constructor | test/Vault.behavior.js:48-53 | a new vault is valid, holds the Init state and has sent nothing |
| VaultEngine.Vault.Deposit | test/Vault.behavior.js:229-236 | updates the fields to the Ledger.Deposit state, returns its status and keeps the invariant |
| VaultEngine.Vault.CashChequeBeneficiary | test/Vault.behavior.js:77-182 | updates the fields to the Ledger.Cash state, appends its transfers to the log, returns its status, keeps the invariant, and restores the fields when the transfer fails |
| VaultEngine.Vault.Withdraw | test/Vault.behavior.js:184-227 | updates the fields to the Ledger.Withdraw state, appends its transfer to the log, returns its status and keeps the invariant |
| VaultEngine.Vault.PaidOutCheques | test/Vault.behavior.js:45-67 | returns the beneficiary's record, zero if it never cashed, and never more than the total paid out |
| VaultEngine.Vault.TotalPaidOutCheques | test/Vault.behavior.js:52-63 | returns the sum of all per-beneficiary records |
| VaultEngine.Vault.Issuer | test/Vault.behavior.js:71-75 | returns the issuer the vault was created with |
| Scenarios.NothingCashedYet | test/Vault.behavior.js:48-53 | on a fresh vault, paidOutCheques of any beneficiary and totalPaidOutCheques are 0 |
| Scenarios.CashedChequeReported | test/Vault.behavior.js:55-64 | after a deposit of 10000 and bob cashing an issuer cheque of 500 to carol, both queries report 500 |
| Scenarios.CashAgainstFunds | test/Vault.behavior.js:90-108 | with 500 plus any surplus deposited (50, or 0 for an exact balance), bob's cash of 500 to carol succeeds, its transfer log is exactly one transfer of 500 to carol, and only the surplus is left |
| Scenarios.CashAgainstEmptyVault | test/Vault.behavior.js:110-114 | against an unfunded vault the transfers made carry no value in total, and the balance and bob's record stay 0; Reject fails with InsufficientBalance, PayAvailable succeeds |
| Scenarios.ChequePresentedTwice | test/Vault.behavior.js:117-128 | after cashing 500 out of a 10000 deposit, the same cheque again fails with CannotCash, and the balance stays 9500 with 500 still paid out |
| Scenarios.CashToBeneficiary | test/Vault.behavior.js:130-136 | when the funds cover it, bob cashing 500 to himself succeeds, his record becomes 500 and the transfer log is exactly one transfer of 500 to bob; under PayAvailable it always succeeds |
| Scenarios.CashWithBadSignature | test/Vault.behavior.js:138-180 | a cash call whose signature does not verify fails with InvalidIssuerSignature, pays nothing and leaves any funded balance unchanged |
| Scenarios.CashWithWrongAmountSigned | test/Vault.behavior.js:138-145 | the issuer signed 1 and bob submits 500: InvalidIssuerSignature |
| Scenarios.CashWithForeignSigner | test/Vault.behavior.js:147-155 | alice signed bob's cheque: InvalidIssuerSignature |
| Scenarios.CashSignedByBeneficiary | test/Vault.behavior.js:169-180 | bob signed a cheque and alice submits it: InvalidIssuerSignature |
| Scenarios.CashWithValue | test/Vault.behavior.js:157-167 | a cash call with value 1 attached fails with UnexpectedValue, whatever the signature, and the balance is unchanged |
| Scenarios.WithdrawAgainstFunds | test/Vault.behavior.js:186-208 | the issuer withdrawing 50 from 50 plus any surplus (50, or 0 for an exact balance) succeeds, leaves the surplus and keeps the total paid out at 0 |
| Scenarios.WithdrawFromEmptyVault | test/Vault.behavior.js:209-212 | the issuer withdrawing 50 from an empty vault fails with InsufficientTotalBalance |
| Scenarios.WithdrawByNonIssuer | test/Vault.behavior.js:214-218 | alice withdrawing 50 fails with NotIssuer, whatever the funds, and the balance is unchanged |
| Scenarios.WithdrawWithValue | test/Vault.behavior.js:220-225 | a withdraw with value 1 attached fails with UnexpectedValue and the balance is unchanged |
| Scenarios.DepositNonZero | test/Vault.behavior.js:229-236 | a deposit of 1 succeeds and the balance becomes 1 |
| Scenarios.IssuerReported | test/Vault.behavior.js:71-75 | issuer() returns the creating issuer, before calls and after them |

## Left out

- Signature cryptography is not modelled: ECDSA recovery, hashing, message prefixing, malleability checks. A signature is its signer plus the message it covers, and the canonical message is a datatype, so the encoding is injective by construction.
- Which fields the real signature covers is not visible, because `test/Vault.should.js` is not part of this model. The message here holds vault identity, beneficiary, recipient and cumulative payout.
- Integer width: amounts are unbounded naturals. Fixed-width 256-bit arithmetic and its overflow behaviour are not modelled. A deposit can therefore never overflow the balance here, and subtraction is guarded, so it cannot underflow.
- Value transfers are modelled as records in a ghost log. Gas, events and re-entrant calls from the recipient are left out. A transfer's failure is a parameter (`transferOk`), and a failed transfer reverts the whole call.
- The test harness is left out: `BN`, `describe`/`context`, the `enabledTests` switches and the deployment fixture. The scenarios that the tree runs without a deposit of their own take their funding as a parameter.
- Revert message texts are left out. Each distinct message is one `Error` constructor. `InsufficientBalance` and `TransferFailed` have no message in the tree.
- `Scenarios.CashAgainstEmptyVault` states no policy-independent status, because the tree does not settle which one is right. It proves only what holds under both policies: the transfers made carry no value in total, and the balance and the record stay zero.
