# BNB sweeper bot — Dafny model

The bot watches a BNB Smart Chain node. On every new block it tries to move
the whole native balance of one compromised wallet to a fixed receiver,
minus the transaction fee. This project models that logic:

- **Config**: the load-time check of the environment. The private key and
  the receiver must be non-empty, the key is checked first, and either
  failure exits with status 1 before any provider or wallet is created.
- **GasPolicy**: the gas price paid is the recommended price capped at
  10 gwei. The fee is 21 000 times that price.
- **Chain**: the ethers provider and wallet, reduced to a client with three
  requests. `getBalance`, `getGasPrice` and `sendTransaction` answer from
  the network's current state, and the client records every request it gets.
- **Sweeper**: one sweep. It has a pure decision (`Decide`) and a
  specification of a whole attempt (`SweepRun`: its completion and the
  requests it makes). The method `Sweep` is proved to follow `SweepRun`.
- **BlockMonitor**: one sweep per block notification, in order. It also
  includes `Launch`, which runs startup and then the monitor.

`getBalance` (index.js:34) and `getGasPrice` (index.js:41) are awaited
before the `try` that opens at index.js:60, so their failures reject
`sweep`'s promise. The model ends such a sweep in `Throw`. Only a failed
`sendTransaction` becomes `Failed`.

All amounts are `nat` wei, matching ethers' `BigNumber`. A thrown error or
a rejected promise is a `Throw` completion.

## Model

| member | source | states |
|---|---|---|
| Config.Start | index.js:9-24 | startup goes on iff both the key and the receiver (unset reads as "") are non-empty; otherwise exit status 1, naming the key whenever the key is empty (it is checked first), else the receiver; on success the values read are kept unchanged |
| GasPolicy.CapGasPrice | index.js:43-46 | the price paid is at most the recommended price and at most 10 gwei, and equals one of them, i.e. it is min(recommended, 10^10) |
| GasPolicy.CappedGasCostBounded | index.js:49 | the fee 21000 × capped price never exceeds the fee at the recommended price nor 21000 × 10 gwei |
| GasPolicy.GasCost | index.js:49 | the fee is a whole multiple of the 21000 gas limit, and dividing it by 21000 gives back the price; CappedGasCostBounded bounds it |
| GasPolicy.CapGasPriceAsWritten | index.js:44-46 | as written, the cap expression yields a value iff recommended < 10 gwei (then the intended price) and throws otherwise |
| GasPolicy.AsWrittenCapThrows | index.js:44-46 | at 50 gwei the code as written throws while the intended price is 10 gwei |
| Chain.Client.constructor | index.js:27-28 | a fresh client has made no request |
| Chain.Client.NewBlock | index.js:78 | after a block notification the client answers from the new block's state |
| Chain.Client.GetBalance | index.js:34 | returns the node's balance answer and records one balance query |
| Chain.Client.GetGasPrice | index.js:41 | returns the node's gas price answer and records one gas-price query |
| Chain.Client.SendTransaction | index.js:62-67 | returns the node's answer to the submission and records exactly that transfer |
| Sweeper.Decide | index.js:35-58 | skip-zero iff the balance is 0; skip-too-low iff 0 < balance ≤ 21000 × capped price, reporting both; otherwise a transfer to the receiver at gas limit 21000 and the capped price, with a positive value such that value + gasLimit × gasPrice equals the balance |
| Sweeper.SweepRun | index.js:33-74 | the whole attempt, case by case: a failed balance query throws after that one request; a zero balance reports SkippedZero after that one request; a failed gas-price query throws after the two queries; 0 < balance ≤ capped fee reports SkippedTooLow(balance, fee) after the two queries; otherwise exactly the two queries and one submission, reported as Sent with the node's receipt or, when the submission fails, as Failed with its message (never a throw); the submitted transfer goes to the receiver at limit 21000 and the capped price ≤ 10 gwei, with value > 0 and value + fee = balance; a transfer is submitted iff the balance exceeds the capped fee |
| Sweeper.Sweep | index.js:33-74 | the sweep method's completion and the requests it makes are those of SweepRun for the node's current state |
| Sweeper.DocumentedScenarios | index.js:43-58 | balance 0 skips; 10^6 wei at 5 gwei skips with fee 1.05×10^14; 10^18 wei at 3 gwei sends 10^18 − 6.3×10^13 at 3 gwei; 50 gwei is capped at 10 gwei |
| BlockMonitor.MonitorCalls | index.js:76-82 | over any block sequence, the transfers submitted are no more than the blocks (the exact count is SubmissionsPerCoveredBlock), each to the receiver at gas limit 21000, price ≤ 10 gwei and positive value |
| BlockMonitor.SubmissionsPerCoveredBlock | index.js:52-67 | the number of transfers submitted equals the number of blocks whose balance exceeds the capped fee |
| BlockMonitor.QuietBlocksSubmitNothing | index.js:35-55 | repeated sweeps while the balance is zero or does not cover the fee (or a query fails) submit nothing |
| BlockMonitor.MonitorResultsAt | index.js:78-81 | in the model's sequential monitor there is one completion per block, and the k-th is the completion of block k's own sweep (see "Left out" for what Node does after a thrown sweep) |
| BlockMonitor.Monitor | index.js:76-82 | the model's monitor sweeps every block in order, whatever the previous outcome (see "Left out" for thrown sweeps); the requests made extend the client's record by MonitorCalls and the completions are MonitorResults |
| BlockMonitor.Launch | index.js:14-84 | startup is Start(env); when it exits no request is ever made; otherwise the requests are those of the monitor over the blocks, to the configured receiver |

## Left out

- Key derivation, signing, nonce assignment and JSON-RPC transport (index.js:27-28) belong to the ethers library. The client only returns the node's answers and records requests. A successful submission does not change the balance the node reports; the next block's state does.
- The order of block notifications and overlapping handlers: `provider.on("block", …)` does not await its async handlers. The model runs one sweep per block, in the order given, each to completion.
- BlockMonitor.Monitor: after a sweep ends in `Throw`, the model keeps monitoring. In index.js the emitter drops the promise that the async handler at index.js:78 returns, so that rejection is unhandled. By default, Node.js 15 and later then end the process with status 1. This affects a failed `getBalance` or `getGasPrice`, and the as-written cap at any price of 10 gwei or more. The model does not capture that termination.
- BlockMonitor.Launch: `new Wallet(key)` at index.js:28 throws when a non-empty key is not a valid private key, and the program then never monitors. The model accepts every non-empty key, because key parsing belongs to the ethers library.
- Logging and formatting (`console.log`, `console.warn`, `formatEther`, `gasPriceToGwei` from utils.js, `log-timestamp`). utils.js is not part of this model.
- Loading the environment (`dotenv/config`, `process.env`) and `process.exit`. The environment is an input value, and the exit is the `Exit(1, …)` startup result.
- The RPC URL is carried through unchanged and is not validated, as in the source.
- Error objects: `err.message ?? err` is modelled as a message string carried by `Throw`.

## Findings

| source | as written | input that shows it | evidently intended | confidence | as-written member | corrected member |
|---|---|---|---|---|---|---|
| index.js:44-46 | the cap branch calls `ethers.BigNumber.from(10e9)`, but index.js:1 imports only `providers` and `Wallet`, so `ethers` is unbound and the branch throws a ReferenceError outside the `try` | recommended gas price 50 gwei (any price ≥ 10 gwei) | use min(recommended, 10 gwei), as the comment at index.js:43 says | high; not executed | GasPolicy.CapGasPriceAsWritten (GasPolicy.AsWrittenCapThrows) | GasPolicy.CapGasPrice |
