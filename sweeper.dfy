/** One sweep attempt, `sweep(wallet)` of index.js:33-74: read the balance,
    skip a zero balance, read and cap the gas price, skip a balance that does
    not cover the fee, otherwise transfer everything but the fee to the
    receiver. A failed submission is caught; failed queries propagate. */
module Sweeper {

  import opened Completions
  import opened GasPolicy
  import opened Chain

  /** What the balance and the recommended price decide. */
  datatype Decision =
    | SkipZero
    | SkipTooLow(balance: nat, gasCost: nat)
    | Send(tx: Transfer)

  /** How a sweep that returns normally ends. */
  datatype Outcome =
    | SkippedZero
    | SkippedTooLow(balance: nat, gasCost: nat)
    | Sent(tx: Transfer, receipt: Receipt)
    | Failed(tx: Transfer, message: string)

  /** A sweep's completion together with the requests it made. */
  datatype Run = Run(result: Completion<Outcome>, calls: seq<Call>)

  /** The decision of index.js:35-58. A transfer is built exactly when the
      balance exceeds the capped fee; it spends the balance to the last wei. */
  function Decide(balance: nat, recommended: nat, receiver: Address): (d: Decision)
    ensures d.SkipZero? <==> balance == 0
    ensures d.SkipTooLow? <==> 0 < balance <= GasCost(CapGasPrice(recommended))
    ensures d.SkipTooLow? ==> d.balance == balance && d.gasCost == GasCost(CapGasPrice(recommended))
    ensures d.Send? ==>
      && d.tx.to == receiver
      && d.tx.gasLimit == TransferGasLimit
      && d.tx.gasPrice == CapGasPrice(recommended)
      && 0 < d.tx.value
      && d.tx.value + d.tx.gasLimit * d.tx.gasPrice == balance
  {
    if balance == 0 then SkipZero
    else
      var price := CapGasPrice(recommended);
      var cost := GasCost(price);
      if balance <= cost then SkipTooLow(balance, cost)
      else Send(Transfer(receiver, balance - cost, TransferGasLimit, price))
  }

  /** The sweep throws exactly when one of its queries fails: the balance query,
      or the gas-price query once the balance is known to be non-zero. */
  predicate QueryFails(net: NetworkState)
  {
    net.balance.Throw? || (net.balance.value != 0 && net.gasPrice.Throw?)
  }

  /** Both queries succeed and the balance exceeds the capped fee. */
  predicate Covered(net: NetworkState)
  {
    && net.balance.Normal?
    && net.gasPrice.Normal?
    && net.balance.value > GasCost(CapGasPrice(net.gasPrice.value))
  }

  /** A transfer a sweep under `net` may submit: to the receiver, at the fixed
      limit and the capped price, moving a positive amount that together with
      the full fee is exactly the balance read. */
  predicate SweepTransfer(tx: Transfer, net: NetworkState, receiver: Address)
  {
    && net.balance.Normal?
    && net.gasPrice.Normal?
    && tx.to == receiver
    && tx.gasLimit == TransferGasLimit
    && tx.gasPrice == CapGasPrice(net.gasPrice.value)
    && tx.gasPrice <= GasPriceCap
    && 0 < tx.value
    && tx.value + tx.gasLimit * tx.gasPrice == net.balance.value
  }

  /** What one sweep does while the node answers as `net`. */
  function SweepRun(net: NetworkState, receiver: Address): (run: Run)
    ensures |run.calls| > 0 && run.calls[0] == QueryBalance
    ensures net.balance.Throw? ==> run == Run(Throw(net.balance.message), [QueryBalance])
    ensures net.balance == Normal(0) ==> run == Run(Normal(SkippedZero), [QueryBalance])
    ensures net.balance.Normal? && net.balance.value != 0 && net.gasPrice.Throw? ==>
      run == Run(Throw(net.gasPrice.message), [QueryBalance, QueryGasPrice])
    ensures (net.balance.Normal? && net.gasPrice.Normal?
             && 0 < net.balance.value <= GasCost(CapGasPrice(net.gasPrice.value))) ==>
      run == Run(Normal(SkippedTooLow(net.balance.value, GasCost(CapGasPrice(net.gasPrice.value)))),
                 [QueryBalance, QueryGasPrice])
    ensures Covered(net) ==>
      && |run.calls| == 3 && run.calls[..2] == [QueryBalance, QueryGasPrice] && run.calls[2].Submit?
      && run.result == Normal(if net.send.Normal? then Sent(run.calls[2].tx, net.send.value)
                              else Failed(run.calls[2].tx, net.send.message))
    ensures QueryGasPrice in run.calls <==> net.balance.Normal? && net.balance.value != 0
    ensures run.result.Throw? <==> QueryFails(net)
    ensures |Submissions(run.calls)| <= 1
    ensures Submissions(run.calls) != [] <==> Covered(net)
    ensures forall tx :: tx in Submissions(run.calls) ==> SweepTransfer(tx, net, receiver)
    ensures Covered(net) && net.send.Throw? ==> run.result.Normal? && run.result.value.Failed?
  {
    match net.balance
    case Throw(m) => Run(Throw(m), [QueryBalance])
    case Normal(balance) =>
      if balance == 0 then Run(Normal(SkippedZero), [QueryBalance])
      else
        match net.gasPrice
        case Throw(m) => Run(Throw(m), [QueryBalance, QueryGasPrice])
        case Normal(recommended) =>
          match Decide(balance, recommended, receiver)
          case SkipTooLow(b, cost) => Run(Normal(SkippedTooLow(b, cost)), [QueryBalance, QueryGasPrice])
          case Send(tx) =>
            var calls := [QueryBalance, QueryGasPrice, Submit(tx)];
            match net.send
            case Normal(receipt) => Run(Normal(Sent(tx, receipt)), calls)
            case Throw(m) => Run(Normal(Failed(tx, m)), calls)
  }

  /** `sweep(wallet)` against a client; the receiver is a parameter instead of
      the module-level RECEIVER_WALLET. */
  method Sweep(client: Client, receiver: Address) returns (r: Completion<Outcome>)
    modifies client`calls
    ensures r == SweepRun(client.head, receiver).result
    ensures client.calls == old(client.calls) + SweepRun(client.head, receiver).calls
  {
    var balance := client.GetBalance();
    if balance.Throw? {
      return Throw(balance.message);
    }
    if balance.value == 0 {
      return Normal(SkippedZero);
    }
    var recommended := client.GetGasPrice();
    if recommended.Throw? {
      return Throw(recommended.message);
    }
    var gasPrice := CapGasPrice(recommended.value);
    var gasCost := GasCost(gasPrice);
    if balance.value <= gasCost {
      return Normal(SkippedTooLow(balance.value, gasCost));
    }
    var amountToSend := balance.value - gasCost;
    var tx := Transfer(receiver, amountToSend, TransferGasLimit, gasPrice);
    var sent := client.SendTransaction(tx);
    match sent
    case Normal(receipt) => r := Normal(Sent(tx, receipt));
    case Throw(m) => r := Normal(Failed(tx, m));
  }

  /** Worked examples: a small balance at 5 gwei is skipped, one
      ether at 3 gwei is swept at 3 gwei, and 50 gwei is capped at 10 gwei. */
  lemma DocumentedScenarios(receiver: Address)
    ensures Decide(0, 5_000_000_000, receiver) == SkipZero
    ensures Decide(1_000_000, 5_000_000_000, receiver) == SkipTooLow(1_000_000, 105_000_000_000_000)
    ensures Decide(1_000_000_000_000_000_000, 3_000_000_000, receiver)
         == Send(Transfer(receiver, 1_000_000_000_000_000_000 - 63_000_000_000_000, TransferGasLimit, 3_000_000_000))
    ensures CapGasPrice(50_000_000_000) == 10_000_000_000
  {
  }

}
