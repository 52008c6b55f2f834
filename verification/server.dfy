/**
 * The two POST routes of the Express server: `/api/deposit` and `/api/withdraw`. Each runs
 * the amount gate, then the wallet gate, then the JavaScript orchestrator, and turns its
 * envelope into the JSON body of the response.
 */
module Server {
  import opened Outcomes
  import opened Units
  import opened Chain
  import opened AmountGate
  import DepositEth
  import WithdrawEth

  /** `res.json` without `res.status`: every answer, success or not, is 200 OK. */
  const JsonStatus: nat := 200

  const L1TxExplorer := "https://sepolia.etherscan.io/tx/"
  const L2TxExplorer := "https://sepolia-explorer.giwa.io/tx/"

  const WalletNotConfiguredMessage := "Wallet not configured. Set TEST_PRIVATE_KEY in .env file"

  /** The JSON bodies the two routes send. */
  datatype Body =
    | DepositAccepted(message: string, l1Hash: Hash, l2Hash: Option<Hash>, l1ExplorerUrl: string, l2ExplorerUrl: string)
    | WithdrawAccepted(message: string, withdrawalHash: Hash, explorerUrl: string)
    | Rejected(error: string)

  datatype Response = Response(status: nat, body: Body)

  /** A response together with the chain calls made while producing it. */
  datatype Exchange = Exchange(response: Response, trace: seq<Call>)

  /**
   * A template literal's rendering of a hash that may be `undefined`. The ensures only
   * unfold the body, so that callers' proofs need not.
   */
  function Interpolated(hash: Option<Hash>): (text: string)
    ensures hash.Some? ==> text == hash.value
    ensures hash == None ==> text == "undefined"
  {
    match hash
    case Some(h) => h
    case None => "undefined"
  }

  /** An explorer link: the explorer's transaction prefix followed by the hash. */
  function TxUrl(explorer: string, hash: Option<Hash>): (url: string)
    ensures |url| >= |explorer| && url[..|explorer|] == explorer
  {
    explorer + Interpolated(hash)
  }

  /** Stripping the explorer prefix gives back the hash, or "undefined" when there is none. */
  lemma TxUrlRecoversHash(explorer: string, hash: Hash)
    ensures TxUrl(explorer, Some(hash))[|explorer|..] == hash
    ensures TxUrl(explorer, None)[|explorer|..] == "undefined"
  {
    assert TxUrl(explorer, Some(hash)) == explorer + hash;
    assert TxUrl(explorer, None) == explorer + "undefined";
  }

  function Reject(error: string, trace: seq<Call>): Exchange
  {
    Exchange(Response(JsonStatus, Rejected(error)), trace)
  }

  /** Both routes' gates, in order: the amount first, then the configured account. */
  function GateError(amount: Option<string>, account: Option<Address>): (error: Option<string>)
    ensures error == None <==> !RejectsAmount(amount) && account.Some?
    ensures RejectsAmount(amount) ==> error == Some(InvalidAmountMessage)
    ensures !RejectsAmount(amount) && account == None ==> error == Some(WalletNotConfiguredMessage)
  {
    if RejectsAmount(amount) then Some(InvalidAmountMessage)
    else if account == None then Some(WalletNotConfiguredMessage)
    else None
  }

  function DepositMessage(amount: string): string
  {
    "Deposit " + amount + " ETH completed successfully!"
  }

  /** `POST /api/deposit` with body field `amount`, for the configured `account`. */
  function PostDeposit(amount: Option<string>, account: Option<Address>, w: DepositEth.DepositWorld): (x: Exchange)
    ensures x.response.status == JsonStatus
    // a gate that rejects answers with its message and touches no chain
    ensures GateError(amount, account).Some? ==> x == Reject(GateError(amount, account).value, [])
    // past the gates, the calls are exactly those of the JavaScript deposit
    ensures GateError(amount, account) == None ==>
              x.trace == DepositEth.Deposit(Js, amount.value, account.value, w).trace
    ensures x.response.body.DepositAccepted? <==>
              GateError(amount, account) == None && DepositEth.Deposit(Js, amount.value, account.value, w).result.Deposited?
    // a success reports the server's own message, both hashes and both explorer links
    ensures x.response.body.DepositAccepted? ==>
              var r := DepositEth.Deposit(Js, amount.value, account.value, w).result;
              x.response.body == DepositAccepted(
                DepositMessage(amount.value), r.l1Hash, r.l2Hash, TxUrl(L1TxExplorer, Some(r.l1Hash)), TxUrl(L2TxExplorer, r.l2Hash))
    // a failure of the deposit passes its error text through
    ensures GateError(amount, account) == None && DepositEth.Deposit(Js, amount.value, account.value, w).result.DepositFailed? ==>
              x.response.body == Rejected(DepositEth.Deposit(Js, amount.value, account.value, w).result.error)
    ensures !x.response.body.WithdrawAccepted?
  {
    match GateError(amount, account)
    case Some(error) => Reject(error, [])
    case None =>
      var run := DepositEth.Deposit(Js, amount.value, account.value, w);
      match run.result
      case DepositFailed(error) => Reject(error, run.trace)
      case Deposited(l1Hash, l2Hash, _) =>
        var body := DepositAccepted(
          DepositMessage(amount.value), l1Hash, l2Hash, TxUrl(L1TxExplorer, Some(l1Hash)), TxUrl(L2TxExplorer, l2Hash));
        Exchange(Response(JsonStatus, body), run.trace)
  }

  /** `POST /api/withdraw` with body field `amount`, for the configured `account`. */
  function PostWithdraw(amount: Option<string>, account: Option<Address>, w: WithdrawEth.WithdrawWorld): (x: Exchange)
    ensures x.response.status == JsonStatus
    ensures GateError(amount, account).Some? ==> x == Reject(GateError(amount, account).value, [])
    ensures GateError(amount, account) == None ==>
              x.trace == WithdrawEth.Withdraw(Js, amount.value, account.value, w).trace
    ensures x.response.body.WithdrawAccepted? <==>
              GateError(amount, account) == None && WithdrawEth.Withdraw(Js, amount.value, account.value, w).result.Withdrawn?
    // a success passes the withdrawal's own message through, with one explorer link
    ensures x.response.body.WithdrawAccepted? ==>
              var r := WithdrawEth.Withdraw(Js, amount.value, account.value, w).result;
              x.response.body == WithdrawAccepted(r.message, r.withdrawalHash, TxUrl(L2TxExplorer, Some(r.withdrawalHash)))
    ensures GateError(amount, account) == None && WithdrawEth.Withdraw(Js, amount.value, account.value, w).result.WithdrawFailed? ==>
              x.response.body == Rejected(WithdrawEth.Withdraw(Js, amount.value, account.value, w).result.error)
    ensures !x.response.body.DepositAccepted?
  {
    match GateError(amount, account)
    case Some(error) => Reject(error, [])
    case None =>
      var run := WithdrawEth.Withdraw(Js, amount.value, account.value, w);
      match run.result
      case WithdrawFailed(error) => Reject(error, run.trace)
      case Withdrawn(hash, message) =>
        Exchange(Response(JsonStatus, WithdrawAccepted(message, hash, TxUrl(L2TxExplorer, Some(hash)))), run.trace)
  }

  /**
   * A deposit goes through exactly when the gates pass and every chain step does, and then
   * reports the sent hash, the first derived L2 hash and their explorer links.
   */
  lemma {:induction false} DepositAnswer(amount: string, account: Address, w: DepositEth.DepositWorld)
    requires !RejectsAmount(Some(amount))
    ensures PostDeposit(Some(amount), Some(account), w).response.body.DepositAccepted?
        <==> DepositEth.Completes(Js, amount, w)
    ensures DepositEth.Completes(Js, amount, w) ==>
              var l2Hash := FirstL2Hash(w.l1Wait.receipt);
              PostDeposit(Some(amount), Some(account), w).response.body
              == DepositAccepted(DepositMessage(amount), w.send.value, l2Hash,
                                 TxUrl(L1TxExplorer, Some(w.send.value)), TxUrl(L2TxExplorer, l2Hash))
  {
    DepositEth.DepositOutcome(Js, amount, account, w);
  }

  /** The route's message is the orchestrator's, cut before its closing sentence. */
  lemma {:induction false} DepositMessageDropsClosing(amount: string)
    ensures DepositMessage(amount) < DepositEth.SuccessMessage(Js, amount)
  {
    assert DepositEth.SuccessMessage(Js, amount) == DepositMessage(amount) + " Bridged from Ethereum to GIWA.";
  }

  /**
   * A withdrawal goes through exactly when the gates pass and every chain step does, and
   * reports the initiating hash with the orchestrator's message unchanged.
   */
  lemma {:induction false} WithdrawAnswer(amount: string, account: Address, w: WithdrawEth.WithdrawWorld)
    requires !RejectsAmount(Some(amount))
    ensures PostWithdraw(Some(amount), Some(account), w).response.body.WithdrawAccepted?
        <==> WithdrawEth.Completes(Js, amount, w)
    ensures var body := PostWithdraw(Some(amount), Some(account), w).response.body;
            body.WithdrawAccepted? ==>
              && body.withdrawalHash == w.initiate.value
              && body.message == WithdrawEth.SuccessMessage(Js, amount)
              && body.explorerUrl == TxUrl(L2TxExplorer, Some(w.initiate.value))
  {
    WithdrawEth.WithdrawOutcome(Js, amount, account, w);
  }

  /**
   * For a plain decimal amount with at most 18 fractional digits, the routes reach the chain
   * only with at least the minimum in wei: the float gate and `parseEther` agree.
   */
  lemma {:induction false} PassedDecimalIsAtLeastMinimum(
    whole: string, fraction: string, point: bool, account: Address, w: DepositEth.DepositWorld)
    requires Decimal.AllDigits(whole) && Decimal.AllDigits(fraction)
    requires !point ==> fraction == []
    requires |whole| + |fraction| >= 1 && |fraction| <= Decimals
    ensures ParseEther(DecimalText(whole, fraction, point)).Some?
    ensures var wei := ParseEther(DecimalText(whole, fraction, point)).value;
            var t := PostDeposit(Some(DecimalText(whole, fraction, point)), Some(account), w).trace;
            |t| >= 2 ==> wei >= MinimumWei && t[1] == BuildDeposit(L2, wei, account)
  {
    GateMatchesWei(whole, fraction, point);
    var amount := DecimalText(whole, fraction, point);
    DepositEth.DepositCallOrder(Js, amount, account, w);
  }

  /**
   * "." passes the gate, so with a configured wallet and a readable balance the deposit
   * route builds a deposit that mints 0 wei.
   */
  lemma {:induction false} LonePointMintsNothing(account: Address, w: DepositEth.DepositWorld)
    requires w.l1Balance.Ok?
    ensures var t := PostDeposit(Some("."), Some(account), w).trace;
            |t| >= 2 && t[1] == BuildDeposit(L2, 0, account)
  {
    LonePointPasses();
    DepositEth.DepositCallOrder(Js, ".", account, w);
  }

  /** A text `parseFloat` cannot read passes the gate and reaches the chain. */
  lemma {:induction false} UnreadableReachesChain(amount: string, account: Address, w: DepositEth.DepositWorld)
    requires amount != "" && ParseFloat(amount) == NotANumber
    ensures PostDeposit(Some(amount), Some(account), w).trace[0] == GetBalance(L1, account)
  {
    UnreadablePasses(amount);
  }
}
