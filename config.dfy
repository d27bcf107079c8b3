/** Startup validation of the process environment (index.js:9-24). */
module Config {

  /** A variable of the process environment: absent, or set to some text
      (possibly the empty string). */
  datatype EnvValue = Unset | Set(text: string)

  /** The three variables the bot reads at load time. */
  datatype Env = Env(rpcUrl: EnvValue, privateKey: EnvValue, receiver: EnvValue)

  /** The settings whose absence aborts startup. */
  datatype Setting = PrivateKeyZeroGas | ReceiverWallet

  /** Either the process exits before any provider or wallet exists, or it
      goes on with the configuration it has read. */
  datatype Startup =
    | Exit(status: int, missing: Setting)
    | Started(rpcUrl: EnvValue, privateKey: string, receiver: string)

  /** `process.env.X || ""`: an unset variable reads as the empty string. */
  function OrEmpty(v: EnvValue): string
  {
    match v
    case Unset => ""
    case Set(s) => s
  }

  /** Startup: the private key is checked first, then the receiver; either one
      empty ends the process with status 1. The RPC URL is not checked. */
  function Start(env: Env): (s: Startup)
    ensures s.Started? <==> OrEmpty(env.privateKey) != "" && OrEmpty(env.receiver) != ""
    ensures s.Exit? ==> s.status == 1
    ensures s.Exit? ==> (s.missing == PrivateKeyZeroGas <==> OrEmpty(env.privateKey) == "")
    ensures s.Started? ==>
      s.rpcUrl == env.rpcUrl && s.privateKey == OrEmpty(env.privateKey) && s.receiver == OrEmpty(env.receiver)
  {
    var key := OrEmpty(env.privateKey);
    var receiver := OrEmpty(env.receiver);
    if key == "" then Exit(1, PrivateKeyZeroGas)
    else if receiver == "" then Exit(1, ReceiverWallet)
    else Started(env.rpcUrl, key, receiver)
  }

}
