/** traceBlocks (mferbackend/mferactionapi.go): blocks are executed one after the other, each under
    its own context and gas pool, and after each its traces are read back from the receipts. */
module Tracing {
  import opened Words
  import opened Keys
  import opened Upstream
  import opened Layers
  import opened Programs
  import opened Execution

  datatype Block = Block(apply: Tx -> Prog, gasLimit: nat, txs: seq<Tx>)

  /** What is traced: the root, the accounts that would be funded, the blocks, and whether the tracer
      configuration can be used. */
  datatype Job = Job(root: Root, fakes: seq<(Address, nat)>, blocks: seq<Block>, tracerOk: bool)

  function EnvAt(job: Job, b: Block): Env {
    Env(job.root, b.apply, b.gasLimit, job.fakes)
  }

  function Traces(f: Flat, txs: seq<Tx>): (r: seq<Option<Bytes>>)
    ensures |r| == |txs| && forall i :: 0 <= i < |txs| ==> r[i] == ReadTrace(f, txs[i].hash)
  {
    seq(|txs|, i requires 0 <= i < |txs| => ReadTrace(f, txs[i].hash))
  }

  /** The machine a block starts from: the state the earlier blocks left and a full gas pool. */
  function BlockStart(job: Job, i: nat, m: Machine): Machine
    requires i < |job.blocks|
    decreases i
  {
    (if i == 0 then m
     else
       var b := job.blocks[i - 1];
       ExecTxs(EnvAt(job, b), job.tracerOk, b.txs, BlockStart(job, i - 1, m)).1
    ).(gas := job.blocks[i].gasLimit)
  }

  /** What is to be reported for transaction j of block i: its own trace, or nothing if it was
      rejected or could not be traced. */
  function OwnReport(job: Job, i: nat, j: nat, m: Machine)
    : Option<Bytes>
    requires i < |job.blocks| && j < |job.blocks[i].txs|
  {
    var b := job.blocks[i];
    var env := EnvAt(job, b);
    var start := BlockStart(job, i, m);
    if !job.tracerOk || ExecAll(env, true, b.txs, start).0[j].Rejected? then None
    else Some(OutcomeOf(env, Before(env, b.txs, j, start), b.txs[j]).trace)
  }

  /** No transaction hash occurs twice in the blocks. */
  ghost predicate DistinctBlocks(blocks: seq<Block>) {
    && (forall i :: 0 <= i < |blocks| ==> DistinctHashes(blocks[i].txs))
    && forall i, j, p, q :: 0 <= i < j < |blocks| && 0 <= p < |blocks[i].txs| && 0 <= q < |blocks[j].txs| ==>
         blocks[i].txs[p].hash != blocks[j].txs[q].hash
  }

  /** A hash that no block up to i holds has left nothing in the state block i starts from. */
  lemma {:induction false} UnseenAtStart(
      job: Job, i: nat, m: Machine, h: TxHash)
    requires i < |job.blocks|
    requires forall k, p :: 0 <= k < i && 0 <= p < |job.blocks[k].txs| ==> job.blocks[k].txs[p].hash != h
    ensures var f := BlockStart(job, i, m).flat;
            LogsAt(f.logs, h) == LogsAt(m.flat.logs, h) && (h in f.receipts <==> h in m.flat.receipts)
    decreases i
  {
    hide ExecAll, AbandonAll;
    if i > 0 {
      UnseenAtStart(job, i - 1, m, h);
      var b := job.blocks[i - 1];
      if job.tracerOk {
        StaysUnseen(EnvAt(job, b), b.txs, BlockStart(job, i - 1, m), h);
      }
    }
  }

  /** Trace position over whole ranges of blocks: with no hash repeated, and none seen before, what
      is read back for every transaction is its own trace. */
  lemma TracesAreOwn(job: Job, i: nat, j: nat, m: Machine)
    requires DistinctBlocks(job.blocks) && i < |job.blocks| && j < |job.blocks[i].txs|
    requires forall k :: 0 <= k < |job.blocks| ==> Unseen(m.flat, job.blocks[k].txs)
    ensures var start := BlockStart(job, i, m);
            var end := ExecTxs(EnvAt(job, job.blocks[i]), job.tracerOk, job.blocks[i].txs, start).1;
            Traces(end.flat, job.blocks[i].txs)[j] == OwnReport(job, i, j, m)
  {
    hide ExecAll, AbandonAll, OutcomeOf, Emitted, BlockStart;
    var txs := job.blocks[i].txs;
    var start := BlockStart(job, i, m);
    assert Unseen(start.flat, txs) by {
      assert Unseen(m.flat, txs);
      forall q | 0 <= q < |txs|
        ensures LogsAt(start.flat.logs, txs[q].hash) == [] && txs[q].hash !in start.flat.receipts
      {
        UnseenAtStart(job, i, m, txs[q].hash);
      }
    }
    if job.tracerOk {
      TracePosition(EnvAt(job, job.blocks[i]), txs, start, j);
    }
  }

  /** The machine after block i. */
  function BlockEnd(job: Job, b: Block, m: Machine): Machine {
    ExecTxs(EnvAt(job, b), job.tracerOk, b.txs, m.(gas := b.gasLimit)).1
  }

  lemma NextStart(job: Job, i: nat, m: Machine, at: Machine)
    requires i < |job.blocks| && at.(gas := job.blocks[i].gasLimit) == BlockStart(job, i, m)
    ensures i + 1 < |job.blocks| ==>
      BlockEnd(job, job.blocks[i], at).(gas := job.blocks[i + 1].gasLimit) == BlockStart(job, i + 1, m)
  {
    hide ExecAll, AbandonAll;
  }

  /** One report for each transaction of the first n blocks, and its own if no hash is repeated. */
  ghost predicate Reported(job: Job, m: Machine,
                           reports: seq<seq<Option<Bytes>>>)
  {
    && |reports| <= |job.blocks|
    && (forall i :: 0 <= i < |reports| ==> |reports[i]| == |job.blocks[i].txs|)
    && (DistinctBlocks(job.blocks) ==> forall i, j :: 0 <= i < |reports| && 0 <= j < |job.blocks[i].txs| ==>
          reports[i][j] == OwnReport(job, i, j, m))
  }

  lemma NothingReported(job: Job, m: Machine)
    ensures job.blocks != [] ==> m.(gas := job.blocks[0].gasLimit) == BlockStart(job, 0, m)
    ensures Reported(job, m, [])
  {
  }

  lemma ReportsAreOwn(job: Job, m: Machine, at: Machine,
                      reports: seq<seq<Option<Bytes>>>)
    requires Reported(job, m, reports) && |reports| < |job.blocks| && m.flat == BLANK
    requires at.(gas := job.blocks[|reports|].gasLimit) == BlockStart(job, |reports|, m)
    ensures var b := job.blocks[|reports|];
            Reported(job, m, reports + [Traces(BlockEnd(job, b, at).flat, b.txs)])
  {
    hide ExecAll, AbandonAll, OwnReport, ReadTrace, BlockStart, DistinctBlocks;
    var i := |reports|;
    if DistinctBlocks(job.blocks) {
      forall j | 0 <= j < |job.blocks[i].txs|
        ensures Traces(BlockEnd(job, job.blocks[i], at).flat, job.blocks[i].txs)[j] ==
                OwnReport(job, i, j, m)
      {
        TracesAreOwn(job, i, j, m);
      }
    }
  }
}
