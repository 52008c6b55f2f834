# GIWA bridge: orchestrators, HTTP routes and page helpers

This project models the core of the GIWA bridge DApp. The DApp moves ETH between Ethereum
Sepolia (L1) and GIWA Sepolia (L2), an OP-stack chain.

- **Orchestrators.** `depositETH` and `withdrawETH` each exist as a JavaScript copy (used by
  the server) and a TypeScript copy (with a command line). A single `Variant` parameter
  (`Js` or `Ts`) covers both.
  - Each is a pure function of the amount text, the account address and a *world*: a record
    holding the outcome every chain call would have (a value, or what it throws).
  - Each returns the result envelope together with the trace of calls it made, so
    properties about what is built, submitted and waited on are statements about the trace.
- **Amounts.**
  - `parseEther` and `formatEther` are decimal-to-wei and wei-to-decimal conversions with
    18 decimals, exact up to 18 fractional digits (module `Units`, over digit strings from `Decimal`).
  - The amount gate `!amount || parseFloat(amount) < 0.001` (module `AmountGate`) reads the
    longest numeric prefix of the text the way `parseFloat` does: a sign, digits with an
    optional point, an optional exponent, `Infinity`, or NaN when there is none. The reading
    is kept as an exact sign, mantissa and decimal exponent and compared with 0.001 exactly.
    JavaScript rounds the reading to a double first; that rounding is not modelled (see
    "## Left out").
- **HTTP routes.** `POST /api/deposit` and `POST /api/withdraw` (module `Server`) run the
  amount gate, then the wallet gate, then the JavaScript orchestrator. They map its envelope
  to a JSON body with explorer links.
- **Page.** The helpers of the page script (module `WebApp`):
  - address and hash shortening with JavaScript `substring` clamping;
  - the transaction labels;
  - the newest-first transaction list;
  - what a click on Deposit or Withdraw shows and records.

Modules follow the program: `Outcomes`, `Decimal`, `Units`, `AmountGate`, `Chain`,
`DepositEth`, `WithdrawEth`, `Server` and `WebApp`.

Two behaviours of the code are worth noting:

- A mined receipt counts as confirmed whatever its status. The orchestrators never read
  `receipt.status`, so a reverted withdrawal is reported as initiated successfully
  (`WithdrawEth.RevertedStillSucceeds`).
- An L2 timeout after a confirmed L1 deposit returns only the error. The L1 hash obtained
  earlier is not reported (`DepositEth.L2TimeoutDropsL1Hash`).

## Model

| member | source | states |
|---|---|---|
| Units.EtherShift | giwa-bridging-eth/src/config.js:25 | with the chain's 18 decimals, shifting by the decimals multiplies by 10^18 wei per ether |
| Units.ParseEtherExact | giwa-bridging-eth/src/deposit_eth.js:13 | an unsigned decimal text with at most 18 fractional digits parses to exactly its value times 10^18 wei |
| Units.ParseEtherAccepts | giwa-bridging-eth/src/deposit_eth.js:13 | parseEther gives a value exactly for an optional "-" followed by digits with at most one point among them, and throws for every other text |
| Units.UnsignedAccepts | giwa-bridging-eth/src/deposit_eth.js:13 | without the sign: digits and at most one point are exactly the texts the unsigned parse accepts |
| Units.FormatEtherRoundTrip | giwa-bridging-eth/src/deposit_eth.js:15 | a wei balance rendered by formatEther parses back to the same number of wei |
| Chain.InsufficientMessageShowsBalance | giwa-bridging-eth/src/deposit_eth.js:15 | the TypeScript message is a prefix of the JavaScript one; the JavaScript message ends in " ETH", preceded by a text that parses back to the balance |
| DepositEth.Deposit | giwa-bridging-eth/src/deposit_eth.js:5-74 | the first call reads the L1 balance of the account; a balance below the parsed amount ends the run with the insufficient-balance envelope and no other call; every later call needs a covered amount and continues with the build |
| DepositEth.Transfer | giwa-bridging-eth/src/deposit_eth.js:21-29 | the payload is built on the L2 client minting the wei to the account; the L1 deposit transaction sends exactly that payload, and only after the build succeeded |
| DepositEth.Confirm | giwa-bridging-eth/src/deposit_eth.js:35-66 | the L1 wait is on the sent hash (120000 ms in the JavaScript copy, none in the TypeScript copy); the L2 wait comes only after a mined L1 receipt and is on its first derived hash, undefined when it derives none (180000 ms or none); a success reports that same first hash; the final reads happen only in the JavaScript copy; success exactly when every wait and read succeeds |
| DepositEth.DepositOutcome | giwa-bridging-eth/src/deposit_eth.js:42-73 | the deposit succeeds exactly when every step succeeds; the envelope is then the sent hash, the first derived hash (undefined when the receipt derives none) and the variant's success message |
| DepositEth.DepositCallOrder | giwa-bridging-eth/src/deposit_eth.js:10-56 | the trace is at most the seven calls (five for TypeScript) in source order, each present only if the one before it succeeded |
| DepositEth.SingleL1Submit | giwa-bridging-eth/src/deposit_eth.js:29 | the only transaction submitted is the third call, a deposit transaction on L1 |
| DepositEth.EqualBalancePasses | giwa-bridging-eth/src/deposit_eth.js:14 | a balance exactly equal to the amount is enough: the build is made |
| DepositEth.L2TimeoutDropsL1Hash | giwa-bridging-eth/src/deposit_eth.js:67-73 | after a sent and confirmed L1 deposit, an L2 timeout yields a failure with the timeout's message and no hash |
| DepositEth.FinalReadFailureFails | giwa-bridging-eth/src/deposit_eth.js:55-56 | in the JavaScript copy, a failing final L2 balance read turns a fully confirmed deposit into a failure after all seven calls |
| DepositEth.VariantsAgree | giwa-bridging-eth/src/deposit_eth.ts:5-52 | when the final reads succeed, the two copies agree on success, and the TypeScript trace is as long as the JavaScript trace cut before its two final reads |
| DepositEth.VariantCallsAgree | giwa-bridging-eth/src/deposit_eth.ts:17-36 | the TypeScript copy makes the same calls in the same order as the JavaScript copy up to the final reads, differing only in its two waits, which carry no timeout where the JavaScript L1 wait carries 120000 ms |
| DepositEth.DepositFailureText | giwa-bridging-eth/src/deposit_eth.js:67-73 | a deposit fails exactly when some step goes wrong (in source order: balance read, parseEther, balance check, build, send, both waits, the final reads); the trace ends at the failing call and the error is its Error message, or "Unknown error occurred during deposit" for any other thrown value |
| DepositEth.TransferFailureText | giwa-bridging-eth/src/deposit_eth.js:21-29 | the same from the build on: a build or send failure ends the transfer at that call with its message |
| DepositEth.ConfirmFailureText | giwa-bridging-eth/src/deposit_eth.js:35-66 | the same from the L1 wait on: a timeout, a failed wait or a failed final read ends the run at that call with its message |
| DepositEth.UnknownErrorFallback | giwa-bridging-eth/src/deposit_eth.ts:45-51 | a thrown non-Error value is reported as "Unknown error occurred" by the TypeScript copy and as "Unknown error occurred during deposit" by the JavaScript copy |
| DepositEth.CliDefaultAccepted | giwa-bridging-eth/src/deposit_eth.ts:56 | the command line default "0.001" (used when the first argument is absent or empty) parses to exactly the 10^15 wei minimum and passes the server's amount gate; the command line itself has no gate |
| WithdrawEth.Withdraw | giwa-bridging-eth/src/withdraw_eth.js:4-56 | the first call reads the L2 balance of the account; a balance below the parsed amount ends the run with the insufficient-balance envelope and no other call; every later call needs a covered amount and continues with the build |
| WithdrawEth.Initiate | giwa-bridging-eth/src/withdraw_eth.js:20-28 | the withdrawal is built through the L1 client paying the wei to the account; it is initiated on L2 with exactly that payload, and only after the build succeeded |
| WithdrawEth.Await | giwa-bridging-eth/src/withdraw_eth.js:34-48 | the wait is on the withdrawal hash on L2 (120000 ms or none); the final L2 read happens only in the JavaScript copy after a mined receipt; success exactly when both succeed, reporting the hash and the variant's message |
| WithdrawEth.WithdrawOutcome | giwa-bridging-eth/src/withdraw_eth.js:44-55 | the withdrawal succeeds exactly when every step succeeds; it then reports the initiating hash and the variant's message |
| WithdrawEth.WithdrawCallOrder | giwa-bridging-eth/src/withdraw_eth.js:9-41 | the trace is at most the five calls (four for TypeScript) in source order, each present only if the one before it succeeded |
| WithdrawEth.OnlyL2Submit | giwa-bridging-eth/src/withdraw_eth.js:28 | the only transaction submitted is the third call, an initiation on L2; the L1 wallet client is never used |
| WithdrawEth.WithdrawFailureText | giwa-bridging-eth/src/withdraw_eth.js:49-55 | a withdrawal fails exactly when some step goes wrong (in source order: balance read, parseEther, balance check, build, initiation, wait, the final read); the trace ends at the failing call and the error is its Error message, or "Unknown error occurred during withdrawal" for any other thrown value |
| WithdrawEth.InitiateFailureText | giwa-bridging-eth/src/withdraw_eth.js:20-28 | the same from the build on: a build or initiation failure ends the run at that call with its message |
| WithdrawEth.AwaitFailureText | giwa-bridging-eth/src/withdraw_eth.js:34-48 | the same from the wait on: a timeout, a failed wait or a failed final read ends the run at that call with its message |
| WithdrawEth.UnknownErrorFallback | giwa-bridging-eth/src/withdraw_eth.ts:35-41 | a thrown non-Error value is reported as "Unknown error occurred" by the TypeScript copy and as "Unknown error occurred during withdrawal" by the JavaScript copy |
| WithdrawEth.RevertedStillSucceeds | giwa-bridging-eth/src/withdraw_eth.js:34-48 | a reverted receipt is still reported as a successful initiation with the withdrawal hash |
| WithdrawEth.CliDefaultRejected | giwa-bridging-eth/src/withdraw_eth.ts:46 | the default "0.00005" is below the 0.001 minimum the server and page enforce |
| WithdrawEth.CliDefaultIsBuilt | giwa-bridging-eth/src/withdraw_eth.ts:12-20 | the orchestrator has no minimum of its own: with a sufficient balance, the default amount, less than 10^15 wei, is built |
| AmountGate.PlainDecimalReading | giwa-bridging-eth/server.js:67 | parseFloat reads a plain decimal text as its exact mantissa and negative exponent |
| AmountGate.BelowMinimumScaled | giwa-bridging-eth/server.js:67 | a reading m * 10^-k with k <= 18 is below 0.001 exactly when m * 10^(18-k) wei is below 10^15 |
| AmountGate.GateMatchesWei | giwa-bridging-eth/server.js:67 | for a plain decimal with at most 18 fractional digits, parseEther succeeds and the gate rejects exactly when the wei amount is below 10^15 |
| AmountGate.HalfMinimumRejected | giwa-bridging-eth/server.js:67 | "0.0005" is rejected |
| AmountGate.MinimumAccepted | giwa-bridging-eth/server.js:67 | "0.001" passes: the comparison with the minimum is strict |
| AmountGate.GateRejectsMissingEmptyNegative | giwa-bridging-eth/server.js:67 | a missing amount, the empty text and "-1" are rejected |
| AmountGate.UnreadablePasses | giwa-bridging-eth/server.js:67 | a text parseFloat reads as NaN passes the gate, because NaN < 0.001 is false |
| AmountGate.LonePointPasses | giwa-bridging-eth/server.js:67 | "." passes the gate, yet parseEther reads it as 0 wei |
| Server.GateError | giwa-bridging-eth/server.js:67-79 | the amount gate comes before the wallet gate; each has its own message; neither fires exactly when the amount passes and an account is configured |
| Server.TxUrl | giwa-bridging-eth/server.js:92-93 | an explorer link starts with the explorer's transaction prefix |
| Server.TxUrlRecoversHash | giwa-bridging-eth/server.js:92-93 | removing the prefix from a link gives back the hash, or "undefined" when the L2 hash is missing |
| Server.PostDeposit | giwa-bridging-eth/server.js:64-108 | status is always 200; a gate rejection makes no chain call; otherwise the calls are those of the JavaScript deposit; it succeeds exactly when the deposit does, with the route's own message, both hashes and both links; a failure passes the error through |
| Server.PostWithdraw | giwa-bridging-eth/server.js:110-152 | status is always 200; a gate rejection makes no chain call; otherwise the calls are those of the JavaScript withdrawal; it succeeds exactly when the withdrawal does, passing its message and hash through with the GIWA link; a failure passes the error through |
| Server.DepositAnswer | giwa-bridging-eth/server.js:86-94 | past the gates, the deposit route succeeds exactly when every chain step does, reporting the sent hash, the first derived hash and their links |
| Server.DepositMessageDropsClosing | giwa-bridging-eth/server.js:89 | the route's message is a proper prefix of the orchestrator's message, which it discards |
| Server.WithdrawAnswer | giwa-bridging-eth/server.js:132-138 | past the gates, the withdraw route succeeds exactly when every chain step does, with the initiating hash, the orchestrator's message unchanged and the GIWA link |
| Server.PassedDecimalIsAtLeastMinimum | giwa-bridging-eth/server.js:67-84 | a plain decimal amount with at most 18 fractional digits parses to wei; if it gets past the balance read, it is at least 10^15 wei and is the amount the deposit builds |
| Server.LonePointMintsNothing | giwa-bridging-eth/server.js:67-84 | with a readable balance, "." reaches the chain and builds a deposit minting 0 wei |
| Server.UnreadableReachesChain | giwa-bridging-eth/server.js:67-84 | an amount parseFloat cannot read is not stopped: the balance is read |
| WebApp.ShortAddress | giwa-bridging-eth/src/web/app.js:18-20 | an address longer than 10 characters shows as its first 6, "..." and its last 4 (13 characters); a shorter one is unchanged |
| WebApp.ShortAddressIdempotent | giwa-bridging-eth/src/web/app.js:18-20 | shortening a shortened address changes nothing |
| WebApp.ShortHash | giwa-bridging-eth/src/web/app.js:150 | a missing or empty hash shows "Pending..."; a hash of 18 or more characters shows its first 10, "..." and its last 8; a hash of at most 8 characters appears twice around "..."; from 9 characters on, the first 10 (all 9 for a 9-character hash), "..." and the last 8, which overlap the head below 18 characters |
| WebApp.PendingOnlyWithoutHash | giwa-bridging-eth/src/web/app.js:150 | "Pending..." is shown exactly when there is no hash |
| WebApp.TypeText | giwa-bridging-eth/src/web/app.js:149 | the deposit label exactly for the type "deposit", the withdraw label for every other type |
| WebApp.AddTransaction | giwa-bridging-eth/src/web/app.js:160 | the new row goes on top and the earlier rows follow in order |
| WebApp.ReplayNewestFirst | giwa-bridging-eth/src/web/app.js:160 | after any sequence of additions the list holds the added rows newest first, above the earlier list |
| WebApp.DepositClick | giwa-bridging-eth/src/web/app.js:49-90 | the page gate shows the invalid-amount message and sends no request; a row is added exactly on a successful answer, recording the L1 hash and the Etherscan link; failures show "Deposit failed: " or "Deposit error: " with the error |
| WebApp.WithdrawClick | giwa-bridging-eth/src/web/app.js:92-132 | the page gate shows the invalid-amount message and sends no request; a row is added exactly on a successful answer, recording the withdrawal hash and the GIWA link; failures show "Withdrawal failed: " or "Withdrawal error: " with the error |
| WebApp.DepositLandsOnTop | giwa-bridging-eth/src/web/app.js:144-160 | end to end: an amount the page accepts passes the server's gates; a completed deposit is added (app.js line 79) on top as a row with the deposit label, the shortened L1 hash and its Etherscan link, above the earlier rows |
| WebApp.WithdrawalLandsOnTop | giwa-bridging-eth/src/web/app.js:121 | end to end: a completed withdrawal lands on top as a withdraw row with the shortened withdrawal hash and its GIWA link |

## Left out

- Logging, the `import.meta.url` guard around the command line, `.then(console.log)` and `express` wiring are side effects with no bearing on results. The same holds for CORS, static files, `GET /` and `listen` with its `process.exit(1)` when no wallet is configured.
- `GET /api/wallet-info` uses `Promise.all`, `parseFloat(...).toFixed(4)` and floating-point formatting. It is left out, and so is the page's `loadWalletInfo` beyond the address shortening.
- The viem calls are oracle outcomes in the world records, not algorithms. These are `getBalance`, `buildDepositTransaction`, `buildInitiateWithdrawal`, `depositTransaction`, `initiateWithdrawal`, `waitForTransactionReceipt` with real time, and the OP-stack hashing in `getL2TransactionHashes`.
- What `parseEther` throws on a malformed amount is a world field (`parseFailure`), since its text comes from the library.
- `parseFloat` is compared with 0.001 exactly. Its rounding to a double is not modelled, so texts just below 0.001 that round up to it differ: "0.00099999999999999999" passes in JavaScript but is rejected here.
- Units.ParseEther: beyond the 18th fractional digit it rounds half up on the 19th digit. The library rounds through `Math.round` on a floating-point value, which is not modelled.
- A JSON `amount` that is not a string (a number, an object) is not modelled. The routes take an optional string.
- Lengths count Unicode characters, not UTF-16 code units. This makes no difference for the ASCII hashes and addresses the helpers shorten.
- The DOM is not modelled: HTML markup of the success status, the transient "Processing ..." status, button state, `validateInput`'s border colour and the wallet reload after each click.
- giwa-bridging-eth/server-simple.js is a demo server built on random numbers and is not part of this model.
- giwa-bridging-eth/src/config.js is not part of this model beyond the 18 decimals of the native currency. The account is a parameter, present in the orchestrators and optional in the routes. As written, config.js exits the process when `TEST_PRIVATE_KEY` is missing or lacks the `0x` prefix (lines 10-19) and always sets `account` (line 56), so the routes' `!account` gate cannot fire; it is modelled as written, with the account optional.
- The `catch` blocks of the two routes are unreachable, because the orchestrators catch everything they call. They are not modelled as a branch.
- AmountGate.MinimumAccepted states that "0.001" passes the gate, not the wei amount it becomes.
