/**
 * The pure parts of the bridge page: shortening addresses and hashes for display, the
 * transaction labels, the newest-first transaction list, and what a click on Deposit or
 * Withdraw shows and records once the server has answered.
 */
module WebApp {
  import opened Outcomes
  import opened Chain
  import opened AmountGate
  import DepositEth
  import WithdrawEth
  import Server

  /** The bound `x` is clamped to, as `String.prototype.substring` clamps its arguments. */
  function Clamp(x: int, length: nat): (c: nat)
    ensures c <= length
    ensures 0 <= x <= length ==> c == x
    ensures x < 0 ==> c == 0
    ensures x > length ==> c == length
  {
    if x < 0 then 0 else if x > length then length else x
  }

  /** `s.substring(start, end)`: both ends clamped to the string, then put in order. */
  function Substring(s: string, start: int, end: int): string
  {
    var a, b := Clamp(start, |s|), Clamp(end, |s|);
    if a <= b then s[a..b] else s[b..a]
  }

  /** `s.substring(start)`: from the clamped start to the end. */
  function SubstringFrom(s: string, start: int): string
  {
    Substring(s, start, |s|)
  }

  /** The wallet address line: longer than 10 characters shows the first 6, "..." and the last 4. */
  function ShortAddress(address: string): (shown: string)
    ensures |address| <= 10 ==> shown == address
    ensures |address| > 10 ==>
              && |shown| == 13
              && shown[..6] == address[..6]
              && shown[6..9] == "..."
              && shown[9..] == address[|address| - 4..]
  {
    if |address| > 10 then Substring(address, 0, 6) + "..." + SubstringFrom(address, |address| - 4)
    else address
  }

  /** Shortening an address that is already short changes nothing. */
  lemma {:induction false} ShortAddressIdempotent(address: string)
    ensures ShortAddress(ShortAddress(address)) == ShortAddress(address)
  {
    var shown := ShortAddress(address);
    if |address| > 10 {
      var again := ShortAddress(shown);
      assert again[..6] == shown[..6] && again[6..9] == "..." && again[9..] == shown[9..];
      assert again == again[..6] + again[6..9] + again[9..];
      assert shown == shown[..6] + shown[6..9] + shown[9..];
    }
  }

  const PendingText := "Pending..."

  /**
   * The hash column: the first 10 characters, "..." and the last 8, or "Pending..." when
   * there is no hash. `substring` clamps, so a hash of at most 8 characters appears twice.
   */
  function ShortHash(hash: Option<Hash>): (shown: string)
    ensures hash == None || hash.value == "" ==> shown == PendingText
    ensures hash.Some? && |hash.value| >= 18 ==>
              var h := hash.value;
              && |shown| == 21
              && shown[..10] == h[..10]
              && shown[10..13] == "..."
              && shown[13..] == h[|h| - 8..]
    ensures hash.Some? && 1 <= |hash.value| <= 8 ==> shown == hash.value + "..." + hash.value
    // from 9 characters on: the first 10 (or all 9), "..." and the last 8, overlapping below 18
    ensures hash.Some? && |hash.value| >= 9 ==>
              var h := hash.value;
              shown == h[..(if |h| < 10 then |h| else 10)] + "..." + h[|h| - 8..]
  {
    if hash == None || hash.value == "" then PendingText
    else
      var h := hash.value;
      Substring(h, 0, 10) + "..." + SubstringFrom(h, |h| - 8)
  }

  /** Only a missing hash shows as "Pending...": no hash shortens to that text. */
  lemma {:induction false} PendingOnlyWithoutHash(hash: Option<Hash>)
    ensures ShortHash(hash) == PendingText <==> hash == None || hash.value == ""
  {
    if hash.Some? && hash.value != "" {
      var h := hash.value;
      var shown := ShortHash(hash);
      var head := if |h| < 10 then |h| else 10;
      var tail := if |h| < 8 then |h| else 8;
      assert |shown| == head + 3 + tail;
      assert |shown| != |PendingText|;
    }
  }

  const DepositLabel := "\U{1F4E5} Deposit to L2"
  const WithdrawLabel := "\U{1F4E4} Withdraw to L1"

  /** The label of a list entry: the deposit label exactly for the type "deposit". */
  function TypeText(kind: string): (shown: string)
    ensures shown == DepositLabel <==> kind == "deposit"
    ensures shown == WithdrawLabel <==> kind != "deposit"
  {
    assert DepositLabel[2] != WithdrawLabel[2];
    if kind == "deposit" then DepositLabel else WithdrawLabel
  }

  /** One row of the transaction list, as rendered. */
  datatype Entry = Entry(typeText: string, amount: string, shortHash: string, link: Option<string>)

  /**
   * `addTransaction(type, amount, hash, explorerUrl)`: the row it renders; an absent or empty
   * link shows none. The ensures only unfold the body, so that callers' proofs need not.
   */
  function NewEntry(kind: string, amount: string, hash: Option<Hash>, explorerUrl: Option<string>): (e: Entry)
    ensures e.typeText == TypeText(kind) && e.amount == amount && e.shortHash == ShortHash(hash)
    ensures e.link.Some? <==> explorerUrl.Some? && explorerUrl.value != ""
    ensures e.link.Some? ==> e.link == explorerUrl
  {
    var link := if explorerUrl.Some? && explorerUrl.value != "" then explorerUrl else None;
    Entry(TypeText(kind), amount, ShortHash(hash), link)
  }

  /** `insertBefore(item, list.firstChild)`: the new row goes on top, the rest keep their order. */
  function AddTransaction(list: seq<Entry>, entry: Entry): (added: seq<Entry>)
    ensures |added| == |list| + 1
    ensures added[0] == entry && added[1..] == list
  {
    [entry] + list
  }

  /** The list after adding `entries` one after the other, the first one first. */
  function Replay(list: seq<Entry>, entries: seq<Entry>): seq<Entry>
    decreases |entries|
  {
    if entries == [] then list
    else AddTransaction(Replay(list, entries[..|entries| - 1]), entries[|entries| - 1])
  }

  /** The list is newest first: the last entry added is on top, and the earlier list is at the bottom. */
  lemma {:induction false} ReplayNewestFirst(list: seq<Entry>, entries: seq<Entry>)
    ensures |Replay(list, entries)| == |entries| + |list|
    ensures forall i | 0 <= i < |entries| :: Replay(list, entries)[i] == entries[|entries| - 1 - i]
    ensures Replay(list, entries)[|entries|..] == list
  {
    if entries != [] {
      var n := |entries|;
      var earlier := entries[..n - 1];
      ReplayNewestFirst(list, earlier);
      var before := Replay(list, earlier);
      var after := Replay(list, entries);
      assert after == [entries[n - 1]] + before;
      forall i | 0 <= i < n
        ensures after[i] == entries[n - 1 - i]
      {
        if i > 0 {
          assert after[i] == before[i - 1] == earlier[n - 2 - (i - 1)];
        }
      }
      assert after[n..] == before[n - 1..];
    }
  }

  datatype StatusKind = Success | Failure

  /** The status line under a form: its text (or markup) and its style. */
  datatype Status = Status(kind: StatusKind, text: string)

  /** What a click leaves behind: whether a request went out, the status shown, the list. */
  datatype Click = Click(requested: bool, status: Status, transactions: seq<Entry>)

  /**
   * A click on Deposit with the input's `amount`. `reply` is what the request to
   * `/api/deposit` resolved to: the server's JSON body, or what `fetch` or `json()` threw.
   */
  function DepositClick(amount: string, reply: Outcome<Server.Body>, list: seq<Entry>): (c: Click)
    // the page's own gate shows the server's message and sends nothing
    ensures RejectsAmount(Some(amount)) ==>
              c == Click(false, Status(Failure, InvalidAmountMessage), list)
    ensures !RejectsAmount(Some(amount)) ==> c.requested
    // a row is added exactly for a successful answer
    ensures c.transactions != list <==> c.status.kind == Success
    ensures c.status.kind == Success <==>
              !RejectsAmount(Some(amount)) && reply.Ok? && !reply.value.Rejected?
    // a successful deposit records the L1 hash and its Etherscan link
    ensures c.status.kind == Success && reply.value.DepositAccepted? ==>
              var body := reply.value;
              c.transactions == AddTransaction(list, NewEntry("deposit", amount, Some(body.l1Hash), Some(body.l1ExplorerUrl)))
    ensures c.status.kind == Failure && reply.Ok? && !RejectsAmount(Some(amount)) ==>
              c.status.text == "Deposit failed: " + reply.value.error
    ensures c.status.kind == Failure && reply.Threw? && !RejectsAmount(Some(amount)) ==>
              c.status.text == "Deposit error: " + ErrorText(reply.thrown, "undefined")
  {
    if RejectsAmount(Some(amount)) then Click(false, Status(Failure, InvalidAmountMessage), list)
    else
      match reply
      case Threw(e) => Click(true, Status(Failure, "Deposit error: " + ErrorText(e, "undefined")), list)
      case Ok(Rejected(error)) => Click(true, Status(Failure, "Deposit failed: " + error), list)
      case Ok(DepositAccepted(message, l1Hash, _, l1ExplorerUrl, _)) =>
        var entry := NewEntry("deposit", amount, Some(l1Hash), Some(l1ExplorerUrl));
        Click(true, Status(Success, message), AddTransaction(list, entry))
      case Ok(WithdrawAccepted(message, _, _)) =>
        // a body without `l1Hash` or `l1ExplorerUrl`: the row shows neither
        Click(true, Status(Success, message), AddTransaction(list, NewEntry("deposit", amount, None, None)))
  }

  /** A click on Withdraw, with `reply` the answer of `/api/withdraw`. */
  function WithdrawClick(amount: string, reply: Outcome<Server.Body>, list: seq<Entry>): (c: Click)
    ensures RejectsAmount(Some(amount)) ==>
              c == Click(false, Status(Failure, InvalidAmountMessage), list)
    ensures !RejectsAmount(Some(amount)) ==> c.requested
    ensures c.transactions != list <==> c.status.kind == Success
    ensures c.status.kind == Success <==>
              !RejectsAmount(Some(amount)) && reply.Ok? && !reply.value.Rejected?
    // a successful withdrawal records the withdrawal hash and its GIWA explorer link
    ensures c.status.kind == Success && reply.value.WithdrawAccepted? ==>
              var body := reply.value;
              c.transactions
              == AddTransaction(list, NewEntry("withdraw", amount, Some(body.withdrawalHash), Some(body.explorerUrl)))
    ensures c.status.kind == Failure && reply.Ok? && !RejectsAmount(Some(amount)) ==>
              c.status.text == "Withdrawal failed: " + reply.value.error
    ensures c.status.kind == Failure && reply.Threw? && !RejectsAmount(Some(amount)) ==>
              c.status.text == "Withdrawal error: " + ErrorText(reply.thrown, "undefined")
  {
    if RejectsAmount(Some(amount)) then Click(false, Status(Failure, InvalidAmountMessage), list)
    else
      match reply
      case Threw(e) => Click(true, Status(Failure, "Withdrawal error: " + ErrorText(e, "undefined")), list)
      case Ok(Rejected(error)) => Click(true, Status(Failure, "Withdrawal failed: " + error), list)
      case Ok(WithdrawAccepted(message, hash, explorerUrl)) =>
        var entry := NewEntry("withdraw", amount, Some(hash), Some(explorerUrl));
        Click(true, Status(Success, message), AddTransaction(list, entry))
      case Ok(DepositAccepted(message, _, _, _, _)) =>
        Click(true, Status(Success, message), AddTransaction(list, NewEntry("withdraw", amount, None, None)))
  }

  /**
   * End to end: an amount the page lets through also passes the server's gates when a wallet
   * is configured, and a deposit whose chain steps all succeed lands on top of the list as a
   * deposit row with the L1 hash shortened and linked to Etherscan.
   */
  lemma {:induction false} DepositLandsOnTop(
    amount: string, account: Address, w: DepositEth.DepositWorld, list: seq<Entry>)
    requires !RejectsAmount(Some(amount))
    requires DepositEth.Completes(Js, amount, w)
    ensures Server.GateError(Some(amount), Some(account)) == None
    ensures var c := DepositClick(amount, Ok(Server.PostDeposit(Some(amount), Some(account), w).response.body), list);
            && c.status == Status(Success, Server.DepositMessage(amount))
            && c.transactions[0].typeText == DepositLabel
            && c.transactions[0].shortHash == ShortHash(Some(w.send.value))
            && c.transactions[0].link == Some(Server.TxUrl(Server.L1TxExplorer, Some(w.send.value)))
            && c.transactions[1..] == list
  {
    Server.DepositAnswer(amount, account, w);
  }

  /** The same for a withdrawal: the row carries the hash that initiated it, linked to the GIWA explorer. */
  lemma {:induction false} WithdrawalLandsOnTop(
    amount: string, account: Address, w: WithdrawEth.WithdrawWorld, list: seq<Entry>)
    requires !RejectsAmount(Some(amount))
    requires WithdrawEth.Completes(Js, amount, w)
    ensures var c := WithdrawClick(amount, Ok(Server.PostWithdraw(Some(amount), Some(account), w).response.body), list);
            && c.status.kind == Success
            && c.transactions[0].typeText == WithdrawLabel
            && c.transactions[0].shortHash == ShortHash(Some(w.initiate.value))
            && c.transactions[0].link == Some(Server.TxUrl(Server.L2TxExplorer, Some(w.initiate.value)))
            && c.transactions[1..] == list
  {
    Server.WithdrawAnswer(amount, account, w);
  }
}
