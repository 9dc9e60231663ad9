/** mfertxpool/txpool.go: the pool's two parallel lists. */
module TxPool {
  import opened Layers
  import opened Execution
  import opened Replay

  class MferTxPool {
    var txs: seq<Tx>
    var execResults: seq<ExecResult>

    ghost predicate Valid()
      reads this
    {
      |txs| == |execResults|
    }

    constructor ()
      ensures Valid() && txs == []
    {
      txs, execResults := [], [];
    }

    method AddTx(tx: Tx, execResult: ExecResult)
      modifies this
      ensures txs == old(txs) + [tx] && execResults == old(execResults) + [execResult]
    {
      txs := txs + [tx];
      execResults := execResults + [execResult];
    }

    method SetResults(results: seq<ExecResult>)
      modifies this`execResults
      ensures execResults == results
    {
      execResults := results;
    }

    method Reset() returns (n: nat)
      modifies this
      ensures Valid() && txs == [] && n == |old(txs)|
    {
      n := |txs|;
      txs, execResults := [], [];
    }

    /** The search loop of TraceTransaction, GetTransactionByHash and RemoveTxByHash. */
    method IndexOf(txHash: TxHash) returns (i: nat)
      ensures i == Find(txs, txHash)
    {
      i := 0;
      while i < |txs| && txs[i].hash != txHash
        invariant i <= |txs| && Find(txs, txHash) == i + Find(txs[i..], txHash)
      {
        assert txs[i..][1..] == txs[i + 1..];
        i := i + 1;
      }
    }

    method GetTransactionByHash(txHash: TxHash) returns (i: nat, found: bool)
      ensures found <==> exists j :: 0 <= j < |txs| && txs[j].hash == txHash
      ensures found ==> i < |txs| && txs[i].hash == txHash && forall j :: 0 <= j < i ==> txs[j].hash != txHash
      ensures !found ==> i == 0
    {
      i := IndexOf(txHash);
      found := i < |txs|;
      if !found {
        i := 0;
      }
    }

    /** Both lists lose the same position: the first one with the hash or, for an absent hash, the
        first of all. The pairing survives. */
    method RemoveTxByHash(txHash: TxHash)
      requires Valid()
      modifies this
      ensures Valid()
      ensures old(txs) == [] ==> txs == []
      ensures old(txs) != [] ==>
        var found := Find(old(txs), txHash);
        var i := if found == |old(txs)| then 0 else found;
        txs == old(txs)[..i] + old(txs)[i + 1..] && execResults == old(execResults)[..i] + old(execResults)[i + 1..]
    {
      if |txs| < 1 {
        return;
      }
      var txIndex := IndexOf(txHash);
      if txIndex == |txs| {
        txIndex := 0;
      }
      txs := txs[..txIndex] + txs[txIndex + 1..];
      execResults := execResults[..txIndex] + execResults[txIndex + 1..];
    }
  }
}
