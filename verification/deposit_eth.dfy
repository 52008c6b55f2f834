/**
 * `depositETH(amount)`: bridge ETH from L1 to L2. Read the L1 balance, compare it with the
 * amount in wei, build the deposit on the L2 client, send it on L1, wait for the L1
 * receipt, derive the L2 hash from it and wait for that on L2; the JavaScript copy then
 * reads both balances again. Every error on the way becomes a failure envelope.
 */
module DepositEth {
  import opened Outcomes
  import opened Decimal
  import opened Units
  import opened Chain
  import opened AmountGate

  /** What every call the deposit makes would return. */
  datatype DepositWorld = DepositWorld(
    l1Balance: Outcome<nat>,
    /** what `parseEther` throws when the amount is not a decimal number */
    parseFailure: Thrown,
    build: Outcome<Payload>,
    send: Outcome<Hash>,
    l1Wait: WaitOutcome,
    l2Wait: WaitOutcome,
    finalL1Balance: Outcome<nat>,
    finalL2Balance: Outcome<nat>)

  /** The returned envelope: `{success: true, l1Hash, l2Hash, message}` or `{success: false, error}`. */
  datatype DepositResult =
    | Deposited(l1Hash: Hash, l2Hash: Option<Hash>, message: string)
    | DepositFailed(error: string)

  datatype DepositRun = DepositRun(result: DepositResult, trace: seq<Call>)

  function L1Timeout(v: Variant): Option<nat>
  {
    if v == Js then Some(TwoMinutesMs) else None
  }

  function L2Timeout(v: Variant): Option<nat>
  {
    if v == Js then Some(ThreeMinutesMs) else None
  }

  function SuccessMessage(v: Variant, amount: string): string
  {
    match v
    case Js => "Deposit " + amount + " ETH completed successfully!" + " Bridged from Ethereum to GIWA."
    case Ts => "Deposit completed successfully!"
  }

  function Fallback(v: Variant): string
  {
    match v
    case Js => "Unknown error occurred during deposit"
    case Ts => "Unknown error occurred"
  }

  /** The catch block: the error's message, or the fallback for a non-Error throw. */
  function Fail(v: Variant, thrown: Thrown, trace: seq<Call>): DepositRun
  {
    DepositRun(DepositFailed(ErrorText(thrown, Fallback(v))), trace)
  }

  /**
   * Everything the deposit needs to go through, stated outcome by outcome: a readable
   * balance covering a well-formed amount, a payload, a hash, both receipts mined and,
   * for the JavaScript copy, both final balance reads.
   */
  predicate Completes(v: Variant, amount: string, w: DepositWorld)
  {
    && w.l1Balance.Ok?
    && ParseEther(amount).Some?
    && ParseEther(amount).value <= w.l1Balance.value
    && w.build.Ok? && w.send.Ok?
    && w.l1Wait.Mined? && w.l2Wait.Mined?
    && (v == Js ==> w.finalL1Balance.Ok? && w.finalL2Balance.Ok?)
  }

  /** The run from the L1 receipt wait on, once the deposit was sent as `l1Hash`. */
  function Confirm(v: Variant, amount: string, account: Address, l1Hash: Hash, w: DepositWorld): (run: DepositRun)
    ensures 1 <= |run.trace| <= (if v == Js then 4 else 2)
    ensures run.trace[0] == WaitReceipt(L1, Some(l1Hash), L1Timeout(v))
    ensures run.result.Deposited? <==>
              w.l1Wait.Mined? && w.l2Wait.Mined? && (v == Js ==> w.finalL1Balance.Ok? && w.finalL2Balance.Ok?)
    ensures run.result.Deposited? ==>
              run.result == Deposited(l1Hash, FirstL2Hash(w.l1Wait.receipt), SuccessMessage(v, amount))
    ensures |run.trace| >= 2 ==>
              w.l1Wait.Mined? && run.trace[1] == WaitReceipt(L2, FirstL2Hash(w.l1Wait.receipt), L2Timeout(v))
    ensures |run.trace| >= 3 ==>
              && v == Js && w.l2Wait.Mined?
              && run.trace[2] == GetBalance(L1, account)
              && (|run.trace| == 4 ==> w.finalL1Balance.Ok? && run.trace[3] == GetBalance(L2, account))
  {
    var l1Wait := WaitReceipt(L1, Some(l1Hash), L1Timeout(v));
    if !w.l1Wait.Mined? then Fail(v, WaitError(w.l1Wait), [l1Wait])
    else
      var l2Hash := FirstL2Hash(w.l1Wait.receipt);
      var l2Wait := WaitReceipt(L2, l2Hash, L2Timeout(v));
      var done := Deposited(l1Hash, l2Hash, SuccessMessage(v, amount));
      if !w.l2Wait.Mined? then Fail(v, WaitError(w.l2Wait), [l1Wait, l2Wait])
      else if v == Ts then DepositRun(done, [l1Wait, l2Wait])
      else
        match w.finalL1Balance
        case Threw(e) => Fail(v, e, [l1Wait, l2Wait, GetBalance(L1, account)])
        case Ok(_) =>
          var rereads := [l1Wait, l2Wait, GetBalance(L1, account), GetBalance(L2, account)];
          match w.finalL2Balance
          case Threw(e) => Fail(v, e, rereads)
          case Ok(_) => DepositRun(done, rereads)
  }

  /** The run from the build on, once `wei` is known to be covered by the balance. */
  function Transfer(v: Variant, amount: string, account: Address, wei: int, w: DepositWorld): (run: DepositRun)
    ensures |run.trace| >= 1 && run.trace[0] == BuildDeposit(L2, wei, account)
    ensures |run.trace| >= 2 ==> w.build.Ok? && run.trace[1] == Submit(L1, DepositTransaction, w.build.value)
    ensures |run.trace| >= 3 ==> w.send.Ok? && run.trace[2..] == Confirm(v, amount, account, w.send.value, w).trace
    ensures run.result.Deposited? <==>
              w.build.Ok? && w.send.Ok? && Confirm(v, amount, account, w.send.value, w).result.Deposited?
    ensures run.result.Deposited? ==> run.result == Confirm(v, amount, account, w.send.value, w).result
  {
    var build := BuildDeposit(L2, wei, account);
    match w.build
    case Threw(e) => Fail(v, e, [build])
    case Ok(payload) =>
      var send := Submit(L1, DepositTransaction, payload);
      match w.send
      case Threw(e) => Fail(v, e, [build, send])
      case Ok(l1Hash) =>
        var rest := Confirm(v, amount, account, l1Hash, w);
        DepositRun(rest.result, [build, send] + rest.trace)
  }

  /** The deposit of `amount` from `account`, against the chain outcomes `w`. */
  function Deposit(v: Variant, amount: string, account: Address, w: DepositWorld): (run: DepositRun)
    // the balance is read first, on L1, for the account
    ensures |run.trace| >= 1 && run.trace[0] == GetBalance(L1, account)
    // a balance below the amount stops the run before anything is built or sent
    ensures w.l1Balance.Ok? && ParseEther(amount).Some? && w.l1Balance.value < ParseEther(amount).value ==>
              run == DepositRun(
                DepositFailed(InsufficientBalanceMessage(v, L1, amount, w.l1Balance.value)),
                [GetBalance(L1, account)])
    // anything after the read needs a covered amount, and goes on with the build
    ensures |run.trace| >= 2 ==>
              && w.l1Balance.Ok? && ParseEther(amount).Some?
              && ParseEther(amount).value <= w.l1Balance.value
              && run.trace[1..] == Transfer(v, amount, account, ParseEther(amount).value, w).trace
    ensures run.result.Deposited? ==> |run.trace| >= 2 && run.result == Transfer(v, amount, account, ParseEther(amount).value, w).result
  {
    var read := [GetBalance(L1, account)];
    match w.l1Balance
    case Threw(e) => Fail(v, e, read)
    case Ok(balance) =>
      match ParseEther(amount)
      case None => Fail(v, w.parseFailure, read)
      case Some(wei) =>
        if balance < wei then
          Fail(v, ErrorInstance(InsufficientBalanceMessage(v, L1, amount, balance)), read)
        else
          var rest := Transfer(v, amount, account, wei, w);
          DepositRun(rest.result, read + rest.trace)
  }

  /** The deposit succeeds exactly when every step does, and reports the sent and derived hashes. */
  lemma DepositOutcome(v: Variant, amount: string, account: Address, w: DepositWorld)
    ensures Deposit(v, amount, account, w).result.Deposited? <==> Completes(v, amount, w)
    ensures Completes(v, amount, w) ==>
              Deposit(v, amount, account, w).result
              == Deposited(w.send.value, FirstL2Hash(w.l1Wait.receipt), SuccessMessage(v, amount))
  {
  }

  /**
   * The calls in order: L1 balance, build on the L2 client minting the wei to the account,
   * send of that payload on L1, L1 wait on the sent hash, L2 wait on the first derived hash,
   * and for the JavaScript copy the two final reads; each only after the one before succeeded.
   */
  lemma DepositCallOrder(v: Variant, amount: string, account: Address, w: DepositWorld)
    ensures var t := Deposit(v, amount, account, w).trace;
            && |t| <= (if v == Js then 7 else 5)
            && (|t| >= 2 ==> t[1] == BuildDeposit(L2, ParseEther(amount).value, account))
            && (|t| >= 3 ==> w.build.Ok? && t[2] == Submit(L1, DepositTransaction, w.build.value))
            && (|t| >= 4 ==> w.send.Ok? && t[3] == WaitReceipt(L1, Some(w.send.value), L1Timeout(v)))
            && (|t| >= 5 ==> w.l1Wait.Mined? && t[4] == WaitReceipt(L2, FirstL2Hash(w.l1Wait.receipt), L2Timeout(v)))
            && (|t| >= 6 ==> v == Js && w.l2Wait.Mined? && t[5] == GetBalance(L1, account))
            && (|t| == 7 ==> w.finalL1Balance.Ok? && t[6] == GetBalance(L2, account))
  {
  }

  /** One deposit transaction at most: the third call, sent on L1, and no other call submits. */
  lemma SingleL1Submit(v: Variant, amount: string, account: Address, w: DepositWorld)
    ensures var t := Deposit(v, amount, account, w).trace;
            && (|t| >= 3 ==> t[2].Submit? && t[2].layer == L1 && t[2].kind == DepositTransaction)
            && (forall i | 0 <= i < |t| && i != 2 :: !t[i].Submit?)
  {
    var t := Deposit(v, amount, account, w).trace;
    DepositCallOrder(v, amount, account, w);
    forall i | 0 <= i < |t| && i != 2
      ensures !t[i].Submit?
    {
      assert i == 0 || i == 1 || i == 3 || i == 4 || i == 5 || i == 6;
    }
  }

  /** A balance exactly equal to the amount is enough: the comparison is strict. */
  lemma EqualBalancePasses(v: Variant, amount: string, account: Address, w: DepositWorld)
    requires ParseEther(amount).Some? && ParseEther(amount).value >= 0
    requires w.l1Balance == Ok(ParseEther(amount).value as nat)
    requires w.build.Ok?
    ensures |Deposit(v, amount, account, w).trace| >= 3
    ensures Deposit(v, amount, account, w).trace[1] == BuildDeposit(L2, ParseEther(amount).value, account)
  {
  }

  /**
   * A timeout on L2 after the L1 deposit went through still fails the whole run: the
   * envelope is the timeout's message alone, and the L1 hash is not reported.
   */
  lemma L2TimeoutDropsL1Hash(v: Variant, amount: string, account: Address, w: DepositWorld, message: string)
    requires w.l1Balance.Ok? && ParseEther(amount).Some? && ParseEther(amount).value <= w.l1Balance.value
    requires w.build.Ok? && w.send.Ok? && w.l1Wait.Mined?
    requires w.l2Wait == TimedOut(ErrorInstance(message))
    ensures Deposit(v, amount, account, w).result == DepositFailed(message)
    ensures Deposit(v, amount, account, w).trace[3] == WaitReceipt(L1, Some(w.send.value), L1Timeout(v))
  {
  }

  /** In the JavaScript copy a failing final balance read undoes a fully confirmed deposit. */
  lemma FinalReadFailureFails(amount: string, account: Address, w: DepositWorld, message: string)
    requires w.l1Balance.Ok? && ParseEther(amount).Some? && ParseEther(amount).value <= w.l1Balance.value
    requires w.build.Ok? && w.send.Ok? && w.l1Wait.Mined? && w.l2Wait.Mined?
    requires w.finalL1Balance.Ok? && w.finalL2Balance == Threw(ErrorInstance(message))
    ensures Deposit(Js, amount, account, w) == DepositRun(DepositFailed(message), Deposit(Js, amount, account, w).trace)
    ensures |Deposit(Js, amount, account, w).trace| == 7
  {
  }

  /**
   * The two copies agree on whether a deposit goes through when the final reads succeed,
   * and the TypeScript run stops where the JavaScript run starts its two final reads.
   */
  lemma VariantsAgree(amount: string, account: Address, w: DepositWorld)
    requires w.finalL1Balance.Ok? && w.finalL2Balance.Ok?
    ensures Deposit(Js, amount, account, w).result.Deposited? <==> Deposit(Ts, amount, account, w).result.Deposited?
    ensures var js, ts := |Deposit(Js, amount, account, w).trace|, |Deposit(Ts, amount, account, w).trace|;
            ts == if js > 5 then 5 else js
  {
    DepositCallOrder(Js, amount, account, w);
    DepositCallOrder(Ts, amount, account, w);
  }

  /**
   * Position by position, the TypeScript run makes the JavaScript run's calls, except that
   * its waits carry no timeout where the JavaScript waits carry theirs.
   */
  lemma {:induction false} VariantCallsAgree(amount: string, account: Address, w: DepositWorld)
    ensures var js, ts := Deposit(Js, amount, account, w).trace, Deposit(Ts, amount, account, w).trace;
            && |ts| <= |js|
            && (|ts| >= 4 ==> ts[3].timeoutMs == None && js[3].timeoutMs == Some(TwoMinutesMs))
    ensures var js, ts := Deposit(Js, amount, account, w).trace, Deposit(Ts, amount, account, w).trace;
            forall i | 0 <= i < |ts| && i < |js| ::
              if ts[i].WaitReceipt? then js[i].WaitReceipt? && js[i].(timeoutMs := None) == ts[i] else js[i] == ts[i]
  {
    var js, ts := Deposit(Js, amount, account, w).trace, Deposit(Ts, amount, account, w).trace;
    DepositCallOrder(Js, amount, account, w);
    DepositCallOrder(Ts, amount, account, w);
    forall i | 0 <= i < |ts| && i < |js|
      ensures if ts[i].WaitReceipt? then js[i].WaitReceipt? && js[i].(timeoutMs := None) == ts[i] else js[i] == ts[i]
    {
      assert i == 0 || i == 1 || i == 2 || i == 3 || i == 4;
    }
  }

  /**
   * The first step of the deposit that goes wrong, if any, taking the steps in source order:
   * the balance read, `parseEther`, the balance comparison, the build, the send, the two
   * waits and, for the JavaScript copy, the two final reads.
   */
  function FirstFailure(v: Variant, amount: string, w: DepositWorld): Option<FailedCall>
  {
    if w.l1Balance.Threw? then Some(FailedCall(0, w.l1Balance.thrown))
    else if ParseEther(amount).None? then Some(FailedCall(0, w.parseFailure))
    else if w.l1Balance.value < ParseEther(amount).value then
      Some(FailedCall(0, ErrorInstance(InsufficientBalanceMessage(v, L1, amount, w.l1Balance.value))))
    else if w.build.Threw? then Some(FailedCall(1, w.build.thrown))
    else if w.send.Threw? then Some(FailedCall(2, w.send.thrown))
    else if !w.l1Wait.Mined? then Some(FailedCall(3, WaitError(w.l1Wait)))
    else if !w.l2Wait.Mined? then Some(FailedCall(4, WaitError(w.l2Wait)))
    else if v == Js && w.finalL1Balance.Threw? then Some(FailedCall(5, w.finalL1Balance.thrown))
    else if v == Js && w.finalL2Balance.Threw? then Some(FailedCall(6, w.finalL2Balance.thrown))
    else None
  }

  /**
   * A deposit fails exactly when some step goes wrong; it then stops right after the call that
   * threw, and its error is that call's Error message, or the copy's fallback for any other
   * thrown value.
   */
  lemma {:induction false} DepositFailureText(v: Variant, amount: string, account: Address, w: DepositWorld)
    ensures var run, f := Deposit(v, amount, account, w), FirstFailure(v, amount, w);
            && (run.result.DepositFailed? <==> f.Some?)
            && (f.Some? ==> run.result.error == ErrorText(f.value.thrown, Fallback(v)) && |run.trace| == f.value.at + 1)
  {
    if w.l1Balance.Ok? && ParseEther(amount).Some? && ParseEther(amount).value <= w.l1Balance.value {
      TransferFailureText(v, amount, account, w);
    }
  }

  /** `DepositFailureText` from the build on: the transfer's trace ends at the failing call. */
  lemma {:induction false} TransferFailureText(v: Variant, amount: string, account: Address, w: DepositWorld)
    requires w.l1Balance.Ok? && ParseEther(amount).Some? && ParseEther(amount).value <= w.l1Balance.value
    ensures var run, f := Transfer(v, amount, account, ParseEther(amount).value, w), FirstFailure(v, amount, w);
            && (run.result.DepositFailed? <==> f.Some?)
            && (f.Some? ==> run.result.error == ErrorText(f.value.thrown, Fallback(v)) && |run.trace| == f.value.at)
  {
    if w.build.Ok? && w.send.Ok? {
      ConfirmFailureText(v, amount, account, w);
    }
  }

  /** `DepositFailureText` from the L1 wait on, once the deposit was sent. */
  lemma {:induction false} ConfirmFailureText(v: Variant, amount: string, account: Address, w: DepositWorld)
    requires w.l1Balance.Ok? && ParseEther(amount).Some? && ParseEther(amount).value <= w.l1Balance.value
    requires w.build.Ok? && w.send.Ok?
    ensures var run, f := Confirm(v, amount, account, w.send.value, w), FirstFailure(v, amount, w);
            && (run.result.DepositFailed? <==> f.Some?)
            && (f.Some? ==> run.result.error == ErrorText(f.value.thrown, Fallback(v)) && |run.trace| + 2 == f.value.at)
  {
  }

  /** A non-Error thrown value is reported with the fallback text of each copy. */
  lemma UnknownErrorFallback(amount: string, account: Address, w: DepositWorld)
    requires w.l1Balance == Threw(NonErrorValue)
    ensures Deposit(Js, amount, account, w).result == DepositFailed("Unknown error occurred during deposit")
    ensures Deposit(Ts, amount, account, w).result == DepositFailed("Unknown error occurred")
  {
  }

  /** The TypeScript command line's fallback, `process.argv[2] || "0.001"`, used when no amount is given. */
  const CliDefault := "0.001"

  /** The command line's default amount is exactly the minimum, 10^15 wei, which the amount gate accepts. */
  lemma {:induction false} CliDefaultAccepted()
    ensures ParseEther(ArgOr(None, CliDefault)) == Some(MinimumWei)
    ensures !RejectsAmount(Some(ArgOr(None, CliDefault)))
  {
    var whole, fraction := "0", "001";
    assert ArgOr(None, CliDefault) == DecimalText(whole, fraction, true);
    assert fraction[0] == '0' && fraction[1] == '0';
    LastDigitValue(whole);
    LastDigitValue(fraction);
    ParseEtherExact(whole, fraction, true);
    MinimumIsShift();
    MinimumAccepted();
  }
}
