/** The blockchain client the sweeper talks to (the ethers provider and
    wallet of index.js:27-28), reduced to the three requests `sweep` makes and
    a record of every request. Signing, nonces and transport are not modelled. */
module Chain {

  import opened Completions

  type Address = string

  /** The transaction object passed to `sendTransaction` (index.js:62-67). */
  datatype Transfer = Transfer(to: Address, value: nat, gasLimit: nat, gasPrice: nat)

  /** What a successful `sendTransaction` resolves to. */
  datatype Receipt = Receipt(hash: string, nonce: nat)

  /** One request to the node. */
  datatype Call = QueryBalance | QueryGasPrice | Submit(tx: Transfer)

  /** How the node answers each request while a given block is the head. */
  datatype NetworkState = NetworkState(
    balance: Completion<nat>,
    gasPrice: Completion<nat>,
    send: Completion<Receipt>)

  /** The node's answers before the first block is observed. */
  const NoBlockYet := NetworkState(Throw("no block"), Throw("no block"), Throw("no block"))

  /** The transfers submitted in a sequence of requests, in order. */
  function Submissions(calls: seq<Call>): (txs: seq<Transfer>)
    ensures |txs| <= |calls|
    ensures forall tx :: tx in txs <==> Submit(tx) in calls
  {
    if calls == [] then []
    else if calls[0].Submit? then [calls[0].tx] + Submissions(calls[1..])
    else Submissions(calls[1..])
  }

  lemma {:induction false} SubmissionsAppend(a: seq<Call>, b: seq<Call>)
    ensures Submissions(a + b) == Submissions(a) + Submissions(b)
  {
    if a == [] {
      assert a + b == b;
    } else {
      assert (a + b)[0] == a[0];
      assert (a + b)[1..] == a[1..] + b;
      SubmissionsAppend(a[1..], b);
    }
  }

  /** A client bound to the compromised wallet. It answers from the current
      network state and records every request it receives. */
  class Client {
    var head: NetworkState
    var calls: seq<Call>

    constructor ()
      ensures head == NoBlockYet && calls == []
    {
      head := NoBlockYet;
      calls := [];
    }

    /** A new block becomes the head; the node now answers from `state`. */
    method NewBlock(state: NetworkState)
      modifies this`head
      ensures head == state
    {
      head := state;
    }

    /** `wallet.getBalance()` (index.js:34). */
    method GetBalance() returns (r: Completion<nat>)
      modifies this`calls
      ensures r == head.balance
      ensures calls == old(calls) + [QueryBalance]
    {
      r := head.balance;
      calls := calls + [QueryBalance];
    }

    /** `provider.getGasPrice()` (index.js:41). */
    method GetGasPrice() returns (r: Completion<nat>)
      modifies this`calls
      ensures r == head.gasPrice
      ensures calls == old(calls) + [QueryGasPrice]
    {
      r := head.gasPrice;
      calls := calls + [QueryGasPrice];
    }

    /** `wallet.sendTransaction(tx)` (index.js:62-67). */
    method SendTransaction(tx: Transfer) returns (r: Completion<Receipt>)
      modifies this`calls
      ensures r == head.send
      ensures calls == old(calls) + [Submit(tx)]
    {
      r := head.send;
      calls := calls + [Submit(tx)];
    }
  }

}
