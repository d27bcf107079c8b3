/** The gas policy of a sweep (index.js:43-49): the price paid is capped at
    10 gwei and a plain transfer uses 21 000 gas. All amounts are in wei. */
module GasPolicy {

  import opened Completions

  /** 10 gwei, written `10e9` in index.js (an exact integer). */
  const GasPriceCap: nat := 10_000_000_000

  /** Gas limit of a plain native-currency transfer. */
  const TransferGasLimit: nat := 21_000

  /** The largest fee a sweep can be charged. */
  const MaxGasCost: nat := TransferGasLimit * GasPriceCap

  /** The price actually paid: the smaller of the recommended price and the cap. */
  function CapGasPrice(recommended: nat): (price: nat)
    ensures price <= recommended && price <= GasPriceCap
    ensures price == recommended || price == GasPriceCap
  {
    if recommended < GasPriceCap then recommended else GasPriceCap
  }

  /** The fee of a transfer at the given price and the fixed gas limit. */
  function GasCost(price: nat): (cost: nat)
    ensures cost % TransferGasLimit == 0 && cost / TransferGasLimit == price
  {
    TransferGasLimit * price
  }

  /** Capping never raises the fee, and bounds it by MaxGasCost. */
  lemma CappedGasCostBounded(recommended: nat)
    ensures GasCost(CapGasPrice(recommended)) <= GasCost(recommended)
    ensures GasCost(CapGasPrice(recommended)) <= MaxGasCost
  {
  }

  /** The cap as index.js:44-46 has it. The cap branch evaluates
      `ethers.BigNumber.from(10e9)`, but index.js:1 imports only `providers`
      and `Wallet`, so `ethers` is unbound and that branch throws a
      ReferenceError instead of producing the cap. CapGasPrice is the intended
      behaviour, and the rest of the model uses it. */
  function CapGasPriceAsWritten(recommended: nat): (c: Completion<nat>)
    ensures c.Normal? <==> recommended < GasPriceCap
    ensures c.Normal? ==> c.value == CapGasPrice(recommended)
  {
    if recommended < GasPriceCap then Normal(recommended)
    else Throw("ReferenceError: ethers is not defined")
  }

  /** At 50 gwei the code as written throws where the intended cap is 10 gwei. */
  lemma AsWrittenCapThrows()
    ensures CapGasPriceAsWritten(50_000_000_000).Throw?
    ensures CapGasPrice(50_000_000_000) == GasPriceCap
  {
  }

}
