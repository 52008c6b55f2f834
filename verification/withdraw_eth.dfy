/**
 * `withdrawETH(amount)`: start a withdrawal from L2 to L1. Read the L2 balance, compare it
 * with the amount in wei, build the withdrawal through the L1 client, initiate it on L2 and
 * wait for the L2 receipt; the JavaScript copy then reads the L2 balance again. Finishing
 * the withdrawal on L1 after the challenge period is not part of this flow.
 */
module WithdrawEth {
  import opened Outcomes
  import opened Decimal
  import opened Units
  import opened Chain
  import opened AmountGate

  /** What every call the withdrawal makes would return. */
  datatype WithdrawWorld = WithdrawWorld(
    l2Balance: Outcome<nat>,
    /** what `parseEther` throws when the amount is not a decimal number */
    parseFailure: Thrown,
    build: Outcome<Payload>,
    initiate: Outcome<Hash>,
    l2Wait: WaitOutcome,
    finalL2Balance: Outcome<nat>)

  /** The returned envelope: `{success: true, withdrawalHash, message}` or `{success: false, error}`. */
  datatype WithdrawResult =
    | Withdrawn(withdrawalHash: Hash, message: string)
    | WithdrawFailed(error: string)

  datatype WithdrawRun = WithdrawRun(result: WithdrawResult, trace: seq<Call>)

  function WaitTimeout(v: Variant): Option<nat>
  {
    if v == Js then Some(TwoMinutesMs) else None
  }

  function SuccessMessage(v: Variant, amount: string): string
  {
    match v
    case Js =>
      "Withdrawal " + amount + " ETH initiated successfully! Funds will be available on L1 after the "
      + "challenge period (approx 7 days). You need to complete the withdrawal process after the "
      + "challenge period."
    case Ts => "Withdrawal initiated! Please wait for the challenge period to complete the withdrawal."
  }

  function Fallback(v: Variant): string
  {
    match v
    case Js => "Unknown error occurred during withdrawal"
    case Ts => "Unknown error occurred"
  }

  /** The catch block: the error's message, or the fallback for a non-Error throw. */
  function Fail(v: Variant, thrown: Thrown, trace: seq<Call>): WithdrawRun
  {
    WithdrawRun(WithdrawFailed(ErrorText(thrown, Fallback(v))), trace)
  }

  /**
   * Everything the withdrawal needs to go through: a readable L2 balance covering a
   * well-formed amount, a payload, a hash, a mined receipt of any status and, for the
   * JavaScript copy, the final balance read.
   */
  predicate Completes(v: Variant, amount: string, w: WithdrawWorld)
  {
    && w.l2Balance.Ok?
    && ParseEther(amount).Some?
    && ParseEther(amount).value <= w.l2Balance.value
    && w.build.Ok? && w.initiate.Ok?
    && w.l2Wait.Mined?
    && (v == Js ==> w.finalL2Balance.Ok?)
  }

  /** The run from the L2 receipt wait on, once the withdrawal was initiated as `hash`. */
  function Await(v: Variant, amount: string, account: Address, hash: Hash, w: WithdrawWorld): (run: WithdrawRun)
    ensures |run.trace| == (if v == Js && w.l2Wait.Mined? then 2 else 1)
    ensures run.trace[0] == WaitReceipt(L2, Some(hash), WaitTimeout(v))
    ensures |run.trace| == 2 ==> run.trace[1] == GetBalance(L2, account)
    ensures run.result.Withdrawn? <==> w.l2Wait.Mined? && (v == Js ==> w.finalL2Balance.Ok?)
    ensures run.result.Withdrawn? ==> run.result == Withdrawn(hash, SuccessMessage(v, amount))
  {
    var wait := WaitReceipt(L2, Some(hash), WaitTimeout(v));
    if !w.l2Wait.Mined? then Fail(v, WaitError(w.l2Wait), [wait])
    else if v == Js && w.finalL2Balance.Threw? then Fail(v, w.finalL2Balance.thrown, [wait, GetBalance(L2, account)])
    else
      var trace := if v == Js then [wait, GetBalance(L2, account)] else [wait];
      WithdrawRun(Withdrawn(hash, SuccessMessage(v, amount)), trace)
  }

  /** The run from the build on, once `wei` is known to be covered by the balance. */
  function Initiate(v: Variant, amount: string, account: Address, wei: int, w: WithdrawWorld): (run: WithdrawRun)
    ensures |run.trace| >= 1 && run.trace[0] == BuildWithdrawal(L1, account, wei)
    ensures |run.trace| >= 2 ==> w.build.Ok? && run.trace[1] == Submit(L2, InitiateWithdrawal, w.build.value)
    ensures |run.trace| >= 3 ==> w.initiate.Ok? && run.trace[2..] == Await(v, amount, account, w.initiate.value, w).trace
    ensures run.result.Withdrawn? <==>
              w.build.Ok? && w.initiate.Ok? && Await(v, amount, account, w.initiate.value, w).result.Withdrawn?
    ensures run.result.Withdrawn? ==> run.result == Await(v, amount, account, w.initiate.value, w).result
  {
    var build := BuildWithdrawal(L1, account, wei);
    match w.build
    case Threw(e) => Fail(v, e, [build])
    case Ok(payload) =>
      var submit := Submit(L2, InitiateWithdrawal, payload);
      match w.initiate
      case Threw(e) => Fail(v, e, [build, submit])
      case Ok(hash) =>
        var rest := Await(v, amount, account, hash, w);
        WithdrawRun(rest.result, [build, submit] + rest.trace)
  }

  /** The withdrawal of `amount` from `account`, against the chain outcomes `w`. */
  function Withdraw(v: Variant, amount: string, account: Address, w: WithdrawWorld): (run: WithdrawRun)
    // the balance is read first, on L2, for the account
    ensures |run.trace| >= 1 && run.trace[0] == GetBalance(L2, account)
    // a balance below the amount stops the run before anything is built or initiated
    ensures w.l2Balance.Ok? && ParseEther(amount).Some? && w.l2Balance.value < ParseEther(amount).value ==>
              run == WithdrawRun(
                WithdrawFailed(InsufficientBalanceMessage(v, L2, amount, w.l2Balance.value)),
                [GetBalance(L2, account)])
    // anything after the read needs a covered amount, and goes on with the build
    ensures |run.trace| >= 2 ==>
              && w.l2Balance.Ok? && ParseEther(amount).Some?
              && ParseEther(amount).value <= w.l2Balance.value
              && run.trace[1..] == Initiate(v, amount, account, ParseEther(amount).value, w).trace
    ensures run.result.Withdrawn? ==>
              |run.trace| >= 2 && run.result == Initiate(v, amount, account, ParseEther(amount).value, w).result
  {
    var read := [GetBalance(L2, account)];
    match w.l2Balance
    case Threw(e) => Fail(v, e, read)
    case Ok(balance) =>
      match ParseEther(amount)
      case None => Fail(v, w.parseFailure, read)
      case Some(wei) =>
        if balance < wei then
          Fail(v, ErrorInstance(InsufficientBalanceMessage(v, L2, amount, balance)), read)
        else
          var rest := Initiate(v, amount, account, wei, w);
          WithdrawRun(rest.result, read + rest.trace)
  }

  /** The withdrawal succeeds exactly when every step does, and reports the initiating hash. */
  lemma WithdrawOutcome(v: Variant, amount: string, account: Address, w: WithdrawWorld)
    ensures Withdraw(v, amount, account, w).result.Withdrawn? <==> Completes(v, amount, w)
    ensures Completes(v, amount, w) ==>
              Withdraw(v, amount, account, w).result == Withdrawn(w.initiate.value, SuccessMessage(v, amount))
  {
  }

  /**
   * The calls in order: L2 balance, build through the L1 client paying the wei to the
   * account, initiation of that payload on L2, L2 wait on its hash, and for the JavaScript
   * copy the final L2 read; each only after the one before succeeded.
   */
  lemma WithdrawCallOrder(v: Variant, amount: string, account: Address, w: WithdrawWorld)
    ensures var t := Withdraw(v, amount, account, w).trace;
            && |t| <= (if v == Js then 5 else 4)
            && (|t| >= 2 ==> t[1] == BuildWithdrawal(L1, account, ParseEther(amount).value))
            && (|t| >= 3 ==> w.build.Ok? && t[2] == Submit(L2, InitiateWithdrawal, w.build.value))
            && (|t| >= 4 ==> w.initiate.Ok? && t[3] == WaitReceipt(L2, Some(w.initiate.value), WaitTimeout(v)))
            && (|t| == 5 ==> v == Js && w.l2Wait.Mined? && t[4] == GetBalance(L2, account))
  {
  }

  /**
   * The only transaction is the initiation on L2, the third call, and no other call submits:
   * the L1 wallet client is never used.
   */
  lemma OnlyL2Submit(v: Variant, amount: string, account: Address, w: WithdrawWorld)
    ensures var t := Withdraw(v, amount, account, w).trace;
            && (|t| >= 3 ==> t[2].Submit? && t[2].layer == L2 && t[2].kind == InitiateWithdrawal)
            && (forall i | 0 <= i < |t| && i != 2 :: !t[i].Submit?)
  {
    var t := Withdraw(v, amount, account, w).trace;
    WithdrawCallOrder(v, amount, account, w);
    forall i | 0 <= i < |t| && i != 2
      ensures !t[i].Submit?
    {
      assert i == 0 || i == 1 || i == 3 || i == 4;
    }
  }

  /** The receipt's status is never looked at: a reverted initiation is reported as a success. */
  lemma RevertedStillSucceeds(v: Variant, amount: string, account: Address, w: WithdrawWorld)
    requires Completes(v, amount, w)
    requires w.l2Wait.receipt.status == Reverted
    ensures Withdraw(v, amount, account, w).result.Withdrawn?
    ensures Withdraw(v, amount, account, w).result.withdrawalHash == w.initiate.value
  {
  }

  /**
   * The first step of the withdrawal that goes wrong, if any, taking the steps in source
   * order: the balance read, `parseEther`, the balance comparison, the build, the initiation,
   * the wait and, for the JavaScript copy, the final read.
   */
  function FirstFailure(v: Variant, amount: string, w: WithdrawWorld): Option<FailedCall>
  {
    if w.l2Balance.Threw? then Some(FailedCall(0, w.l2Balance.thrown))
    else if ParseEther(amount).None? then Some(FailedCall(0, w.parseFailure))
    else if w.l2Balance.value < ParseEther(amount).value then
      Some(FailedCall(0, ErrorInstance(InsufficientBalanceMessage(v, L2, amount, w.l2Balance.value))))
    else if w.build.Threw? then Some(FailedCall(1, w.build.thrown))
    else if w.initiate.Threw? then Some(FailedCall(2, w.initiate.thrown))
    else if !w.l2Wait.Mined? then Some(FailedCall(3, WaitError(w.l2Wait)))
    else if v == Js && w.finalL2Balance.Threw? then Some(FailedCall(4, w.finalL2Balance.thrown))
    else None
  }

  /**
   * A withdrawal fails exactly when some step goes wrong; it then stops right after the call
   * that threw, and its error is that call's Error message, or the copy's fallback for any
   * other thrown value.
   */
  lemma {:induction false} WithdrawFailureText(v: Variant, amount: string, account: Address, w: WithdrawWorld)
    ensures var run, f := Withdraw(v, amount, account, w), FirstFailure(v, amount, w);
            && (run.result.WithdrawFailed? <==> f.Some?)
            && (f.Some? ==> run.result.error == ErrorText(f.value.thrown, Fallback(v)) && |run.trace| == f.value.at + 1)
  {
    if w.l2Balance.Ok? && ParseEther(amount).Some? && ParseEther(amount).value <= w.l2Balance.value {
      InitiateFailureText(v, amount, account, w);
    }
  }

  /** `WithdrawFailureText` from the build on: the initiation's trace ends at the failing call. */
  lemma {:induction false} InitiateFailureText(v: Variant, amount: string, account: Address, w: WithdrawWorld)
    requires w.l2Balance.Ok? && ParseEther(amount).Some? && ParseEther(amount).value <= w.l2Balance.value
    ensures var run, f := Initiate(v, amount, account, ParseEther(amount).value, w), FirstFailure(v, amount, w);
            && (run.result.WithdrawFailed? <==> f.Some?)
            && (f.Some? ==> run.result.error == ErrorText(f.value.thrown, Fallback(v)) && |run.trace| == f.value.at)
  {
    if w.build.Ok? && w.initiate.Ok? {
      AwaitFailureText(v, amount, account, w);
    }
  }

  /** `WithdrawFailureText` from the wait on, once the withdrawal was initiated. */
  lemma {:induction false} AwaitFailureText(v: Variant, amount: string, account: Address, w: WithdrawWorld)
    requires w.l2Balance.Ok? && ParseEther(amount).Some? && ParseEther(amount).value <= w.l2Balance.value
    requires w.build.Ok? && w.initiate.Ok?
    ensures var run, f := Await(v, amount, account, w.initiate.value, w), FirstFailure(v, amount, w);
            && (run.result.WithdrawFailed? <==> f.Some?)
            && (f.Some? ==> run.result.error == ErrorText(f.value.thrown, Fallback(v)) && |run.trace| + 2 == f.value.at)
  {
  }

  /** A non-Error thrown value is reported with the fallback text of each copy. */
  lemma UnknownErrorFallback(amount: string, account: Address, w: WithdrawWorld)
    requires w.l2Balance == Threw(NonErrorValue)
    ensures Withdraw(Js, amount, account, w).result == WithdrawFailed("Unknown error occurred during withdrawal")
    ensures Withdraw(Ts, amount, account, w).result == WithdrawFailed("Unknown error occurred")
  {
  }

  /** The TypeScript command line's fallback, `process.argv[2] || "0.00005"`, used when no amount is given. */
  const CliDefault := "0.00005"

  /** 5 * 10^13 wei is above zero and below the 10^15 minimum. */
  lemma {:induction false} CliDefaultBelowMinimum()
    ensures 0 < Shift(5, 13) < MinimumWei
  {
    MinimumIsShift();
    ShiftShift(1, 2, 13);
    assert Shift(1, 2) == 100;
    ShiftLess(5, 100, 13);
  }

  /** The HTTP and page gates reject the command line's default amount, 5 * 10^-5 ether. */
  lemma {:induction false} CliDefaultRejected()
    ensures RejectsAmount(Some(ArgOr(None, CliDefault)))
  {
    var fraction := "00005";
    assert ArgOr(None, CliDefault) == DecimalText("0", fraction, true) by {
      assert ArgOr(None, CliDefault) == CliDefault;
    }
    assert Value(fraction) == 5 by {
      assert fraction[0] == '0' && fraction[1] == '0' && fraction[2] == '0' && fraction[3] == '0';
      LastDigitValue(fraction);
    }
    assert Value("0") == 0 by {
      LastDigitValue("0");
    }
    ParseEtherExact("0", fraction, true);
    GateMatchesWei("0", fraction, true);
    CliDefaultBelowMinimum();
  }

  /**
   * Yet the orchestrator has no minimum of its own: with a balance of at least the minimum,
   * the default amount parses to less than the minimum and is built.
   */
  lemma {:induction false} CliDefaultIsBuilt(account: Address, w: WithdrawWorld)
    requires w.l2Balance.Ok? && w.l2Balance.value >= MinimumWei
    ensures ParseEther(ArgOr(None, CliDefault)).Some? && ParseEther(ArgOr(None, CliDefault)).value < MinimumWei
    ensures |Withdraw(Ts, ArgOr(None, CliDefault), account, w).trace| >= 2
    ensures Withdraw(Ts, ArgOr(None, CliDefault), account, w).trace[1]
         == BuildWithdrawal(L1, account, ParseEther(ArgOr(None, CliDefault)).value)
  {
    assert ArgOr(None, CliDefault) == DecimalText("0", "00005", true);
    GateMatchesWei("0", "00005", true);
    CliDefaultRejected();
  }
}
