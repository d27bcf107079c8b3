/** The driving loop, `main` of index.js:76-84, and the startup that precedes
    it: one sweep per block notification, each finishing before the next. */
module BlockMonitor {

  import opened Completions
  import opened Config
  import opened GasPolicy
  import opened Chain
  import opened Sweeper

  /** A block notification, with how the node answers while that block is the head. */
  datatype Block = Block(number: nat, state: NetworkState)

  /** The requests made while the blocks are processed in order. */
  function MonitorCalls(blocks: seq<Block>, receiver: Address): (calls: seq<Call>)
    ensures |Submissions(calls)| <= |blocks|
    ensures forall tx :: tx in Submissions(calls) ==>
      tx.to == receiver && tx.gasLimit == TransferGasLimit && 0 < tx.value && tx.gasPrice <= GasPriceCap
  {
    if blocks == [] then []
    else
      var earlier := MonitorCalls(blocks[..|blocks| - 1], receiver);
      var last := SweepRun(blocks[|blocks| - 1].state, receiver).calls;
      SubmissionsAppend(earlier, last);
      earlier + last
  }

  /** The completion of each block's sweep, in order. */
  function MonitorResults(blocks: seq<Block>, receiver: Address): (results: seq<Completion<Outcome>>)
    ensures |results| == |blocks|
  {
    if blocks == [] then []
    else MonitorResults(blocks[..|blocks| - 1], receiver) + [SweepRun(blocks[|blocks| - 1].state, receiver).result]
  }

  /** Every block gets its own sweep: the k-th completion is that of block k. */
  lemma {:induction false} MonitorResultsAt(blocks: seq<Block>, k: nat, receiver: Address)
    requires k < |blocks|
    ensures MonitorResults(blocks, receiver)[k] == SweepRun(blocks[k].state, receiver).result
  {
    var front := blocks[..|blocks| - 1];
    if k < |front| {
      MonitorResultsAt(front, k, receiver);
    }
  }

  /** Processing one more block appends that block's sweep to the requests
      and its completion to the results. */
  lemma MonitorStep(blocks: seq<Block>, i: nat, receiver: Address)
    requires i < |blocks|
    ensures MonitorCalls(blocks[..i + 1], receiver)
         == MonitorCalls(blocks[..i], receiver) + SweepRun(blocks[i].state, receiver).calls
    ensures MonitorResults(blocks[..i + 1], receiver)
         == MonitorResults(blocks[..i], receiver) + [SweepRun(blocks[i].state, receiver).result]
  {
    assert blocks[..i + 1][..i] == blocks[..i];
  }

  /** Solver hint: a stock sequence fact, stated once so that Monitor's loop
      does not have to rediscover it. */
  lemma AppendAssociative<T>(a: seq<T>, b: seq<T>, c: seq<T>)
    ensures a + b + c == a + (b + c)
  {
  }

  /** The number of blocks at which a transfer is due. */
  function CoveredBlocks(blocks: seq<Block>): nat
  {
    if blocks == [] then 0
    else CoveredBlocks(blocks[..|blocks| - 1]) + (if Covered(blocks[|blocks| - 1].state) then 1 else 0)
  }

  /** Exactly one transfer is submitted per block whose balance covers the fee. */
  lemma {:induction false} SubmissionsPerCoveredBlock(blocks: seq<Block>, receiver: Address)
    ensures |Submissions(MonitorCalls(blocks, receiver))| == CoveredBlocks(blocks)
  {
    if blocks != [] {
      var front := blocks[..|blocks| - 1];
      var last := SweepRun(blocks[|blocks| - 1].state, receiver).calls;
      SubmissionsPerCoveredBlock(front, receiver);
      SubmissionsAppend(MonitorCalls(front, receiver), last);
    }
  }

  /** Repeated sweeps while the balance stays zero or below the fee (or a query
      keeps failing) submit nothing. */
  lemma {:induction false} QuietBlocksSubmitNothing(blocks: seq<Block>, receiver: Address)
    requires forall k :: 0 <= k < |blocks| ==> !Covered(blocks[k].state)
    ensures Submissions(MonitorCalls(blocks, receiver)) == []
  {
    if blocks != [] {
      var front := blocks[..|blocks| - 1];
      var last := SweepRun(blocks[|blocks| - 1].state, receiver).calls;
      QuietBlocksSubmitNothing(front, receiver);
      SubmissionsAppend(MonitorCalls(front, receiver), last);
    }
  }

  /** The block handler of index.js:78-81, run for each notification in turn.
      Every block is swept, whatever the previous sweep's outcome. */
  method Monitor(client: Client, receiver: Address, blocks: seq<Block>)
    returns (results: seq<Completion<Outcome>>)
    modifies client`head, client`calls
    ensures client.calls == old(client.calls) + MonitorCalls(blocks, receiver)
    ensures results == MonitorResults(blocks, receiver)
  {
    results := [];
    ghost var start := client.calls;
    var i := 0;
    while i < |blocks|
      invariant 0 <= i <= |blocks|
      invariant client.calls == start + MonitorCalls(blocks[..i], receiver)
      invariant results == MonitorResults(blocks[..i], receiver)
    {
      client.NewBlock(blocks[i].state);
      ghost var before := client.calls;
      ghost var earlier := MonitorCalls(blocks[..i], receiver);
      ghost var run := SweepRun(blocks[i].state, receiver);
      var r := Sweep(client, receiver);
      assert client.calls == before + run.calls;  // solver hint: Sweep's ensures, named
      MonitorStep(blocks, i, receiver);
      AppendAssociative(start, earlier, run.calls);
      results := results + [r];
      i := i + 1;
    }
    assert blocks[..i] == blocks;
  }

  /** Load-time validation followed by the monitor. When startup exits, no
      client exists and no request is ever made. */
  method Launch(env: Env, blocks: seq<Block>) returns (startup: Startup, calls: seq<Call>)
    ensures startup == Start(env)
    ensures startup.Exit? ==> calls == []
    ensures startup.Started? ==> calls == MonitorCalls(blocks, startup.receiver)
  {
    startup := Start(env);
    if startup.Exit? {
      return startup, [];
    }
    var client := new Client();
    var _ := Monitor(client, startup.receiver, blocks);
    calls := client.calls;
  }

}
