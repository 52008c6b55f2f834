/**
 * The two chains as the orchestrators see them: the calls they make through the viem
 * clients, the outcomes those calls can have, and what the two copies of each
 * orchestrator (the JavaScript one the server imports and the TypeScript one with a
 * command line) share.
 */
module Chain {
  import opened Outcomes
  import opened Units

  type Address = string
  type Hash = string
  /** The opaque arguments a build call returns and a submit call consumes. */
  type Payload = string

  /** L1 is Ethereum Sepolia, L2 is GIWA Sepolia. */
  datatype Layer = L1 | L2

  datatype SubmitKind = DepositTransaction | InitiateWithdrawal

  /** One call an orchestrator makes on a client, with the arguments it passes. */
  datatype Call =
    | GetBalance(layer: Layer, address: Address)
    | BuildDeposit(client: Layer, mint: int, to: Address)
    | BuildWithdrawal(client: Layer, to: Address, value: int)
    | Submit(layer: Layer, kind: SubmitKind, payload: Payload)
    | WaitReceipt(layer: Layer, hash: Option<Hash>, timeoutMs: Option<nat>)

  /** The receipt's status field; nothing in the orchestrators reads it. */
  datatype TxStatus = Succeeded | Reverted

  /** A mined receipt and the L2 transaction hashes its deposit events derive. */
  datatype Receipt = Receipt(status: TxStatus, depositedL2Hashes: seq<Hash>)

  /** How waiting for a receipt ends: mined (whatever its status), timed out, or failed. */
  datatype WaitOutcome =
    | Mined(receipt: Receipt)
    | TimedOut(timeoutError: Thrown)
    | WaitFailed(waitError: Thrown)

  /**
   * `const [l2Hash] = getL2TransactionHashes(receipt)`: the first derived hash, if any. The
   * ensures only unfold the body, so that callers' proofs need not.
   */
  function FirstL2Hash(receipt: Receipt): (h: Option<Hash>)
    ensures h == None <==> receipt.depositedL2Hashes == []
    ensures h.Some? ==> h.value == receipt.depositedL2Hashes[0]
  {
    if receipt.depositedL2Hashes == [] then None else Some(receipt.depositedL2Hashes[0])
  }

  /** What a failed wait threw. */
  function WaitError(outcome: WaitOutcome): Thrown
    requires !outcome.Mined?
  {
    if outcome.TimedOut? then outcome.timeoutError else outcome.waitError
  }

  /** Where a run stops: the position in the trace of the call that threw, and what it threw. */
  datatype FailedCall = FailedCall(at: nat, thrown: Thrown)

  /** `deposit_eth.js`/`withdraw_eth.js` (imported by the server) or their `.ts` twins. */
  datatype Variant = Js | Ts

  /** Two minutes: the JavaScript copies' L1 deposit wait and L2 withdrawal wait. */
  const TwoMinutesMs: nat := 120000
  /** Three minutes: the JavaScript deposit's L2 wait. */
  const ThreeMinutesMs: nat := 180000

  function LayerName(layer: Layer): string
  {
    match layer
    case L1 => "L1"
    case L2 => "L2"
  }

  /**
   * The error thrown when the balance on `layer` is below the amount: the JavaScript copy
   * names both amounts, the TypeScript copy only the layer.
   */
  function InsufficientBalanceMessage(v: Variant, layer: Layer, amount: string, balance: nat): string
  {
    var head := "Insufficient " + LayerName(layer) + " balance";
    match v
    case Ts => head
    case Js => head + ". Need " + amount + " ETH but have " + FormatEther(balance) + " ETH"
  }

  /**
   * The terse message is the start of the verbose one, and the verbose one ends with the
   * balance in ether followed by " ETH", a text that reads back as exactly that balance.
   */
  lemma {:induction false} InsufficientMessageShowsBalance(layer: Layer, amount: string, balance: nat)
    ensures InsufficientBalanceMessage(Ts, layer, amount, balance)
         <= InsufficientBalanceMessage(Js, layer, amount, balance)
    ensures var m := InsufficientBalanceMessage(Js, layer, amount, balance);
            var shown := FormatEther(balance);
            |m| >= |shown| + 4
            && m[|m| - 4..] == " ETH"
            && ParseEther(m[|m| - 4 - |shown|..|m| - 4]) == Some(balance as int)
  {
    var head := "Insufficient " + LayerName(layer) + " balance";
    var shown := FormatEther(balance);
    var m := InsufficientBalanceMessage(Js, layer, amount, balance);
    var lead := head + ". Need " + amount + " ETH but have ";
    assert m == lead + shown + " ETH";
    assert m[..|head|] == head;
    assert m[|m| - 4 - |shown|..|m| - 4] == shown;
    FormatEtherRoundTrip(balance);
  }
}
