/**
 * History: sequences of calls against one vault, run one after another, and
 * the properties that hold across any such sequence: the ledger invariant,
 * non-decreasing payouts and conservation of value.
 */
module History {
  import opened Cheques
  import opened Sums
  import opened Ledger

  /** One call to the vault, with its caller, attached value and arguments. */
  datatype Call =
    | DepositCall(caller: Address, value: nat)
    | CashCall(caller: Address, value: nat, recipient: Address, cumulativePayout: nat, sig: Signature,
               transferOk: bool)
    | WithdrawCall(caller: Address, value: nat, amount: nat, transferOk: bool)

  /** The state after a sequence of calls and every transfer they made, in order. */
  datatype Trace = Trace(post: State, sent: seq<Transfer>)

  function Step(s: State, call: Call): Receipt
  {
    match call
    case DepositCall(caller, value) => Deposit(s, caller, value)
    case CashCall(caller, value, recipient, c, sig, ok) => Cash(s, caller, value, recipient, c, sig, ok)
    case WithdrawCall(caller, value, amount, ok) => Withdraw(s, caller, value, amount, ok)
  }

  /** Runs `calls` in order from `s`; each call sees the state the previous one left. */
  function Run(s: State, calls: seq<Call>): Trace
    decreases |calls|
  {
    if calls == [] then Trace(s, [])
    else
      var r := Step(s, calls[0]);
      var t := Run(r.post, calls[1..]);
      Trace(t.post, r.sent + t.sent)
  }

  /** The value sent by a list of transfers. */
  function Amount(ts: seq<Transfer>): nat
  {
    if ts == [] then 0 else ts[0].amount + Amount(ts[1..])
  }

  /** The value deposited by a list of calls (deposits never fail). */
  function Deposited(calls: seq<Call>): nat
  {
    if calls == [] then 0
    else (if calls[0].DepositCall? then calls[0].value else 0) + Deposited(calls[1..])
  }

  lemma {:induction false} AmountAppend(a: seq<Transfer>, b: seq<Transfer>)
    ensures Amount(a + b) == Amount(a) + Amount(b)
  {
    if a == [] {
      assert a + b == b;
    } else {
      assert (a + b)[0] == a[0] && (a + b)[1..] == a[1..] + b;
      AmountAppend(a[1..], b);
    }
  }

  /** Any history keeps the ledger invariant and the vault's identity. */
  lemma {:induction false} RunKeepsInv(s: State, calls: seq<Call>)
    requires Inv(s)
    ensures Inv(Run(s, calls).post) && SameVault(s, Run(s, calls).post)
    decreases |calls|
  {
    if calls != [] {
      if calls[0].CashCall? {
        var CashCall(caller, value, recipient, c, sig, ok) := calls[0];
        CashKeepsInv(s, caller, value, recipient, c, sig, ok);
      }
      RunKeepsInv(Step(s, calls[0]).post, calls[1..]);
    }
  }

  /**
   * Monotonicity: whatever the order in which calls arrive, no beneficiary's
   * recorded payout and not the total paid out ever decreases.
   */
  lemma {:induction false} RunPaidOutMonotone(s: State, calls: seq<Call>, b: Address)
    ensures PaidOut(s, b) <= PaidOut(Run(s, calls).post, b)
    ensures s.totalPaidOut <= Run(s, calls).post.totalPaidOut
    decreases |calls|
  {
    if calls != [] {
      RunPaidOutMonotone(Step(s, calls[0]).post, calls[1..], b);
    }
  }

  /**
   * Conservation: the balance left plus all value sent out equals the
   * balance at the start plus all value deposited.  No value leaves the
   * vault that was not put in: the balance cannot be overdrawn.
   */
  lemma {:induction false} RunConservesValue(s: State, calls: seq<Call>)
    ensures Run(s, calls).post.balance + Amount(Run(s, calls).sent) == s.balance + Deposited(calls)
    decreases |calls|
  {
    if calls != [] {
      var r := Step(s, calls[0]);
      RunConservesValue(r.post, calls[1..]);
      AmountAppend(r.sent, Run(r.post, calls[1..]).sent);
    }
  }

  /** Every history that only deposits and cashes sends exactly what it adds to the total paid out. */
  lemma {:induction false} RunCashPaysTotal(s: State, calls: seq<Call>)
    requires forall i :: 0 <= i < |calls| ==> !calls[i].WithdrawCall?
    ensures Amount(Run(s, calls).sent) == Run(s, calls).post.totalPaidOut - s.totalPaidOut
    decreases |calls|
  {
    if calls != [] {
      var r := Step(s, calls[0]);
      RunCashPaysTotal(r.post, calls[1..]);
      RunPaidOutMonotone(r.post, calls[1..], 0);
      AmountAppend(r.sent, Run(r.post, calls[1..]).sent);
    }
  }
}
