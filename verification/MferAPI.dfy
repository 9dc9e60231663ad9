/** mferbackend: the requests that change or replay the live state, each a step of Replay. */
module MferAPI {
  import opened Words
  import opened Upstream
  import opened Layers
  import opened Programs
  import opened Execution
  import opened Replay
  import opened OverlayDB
  import opened Overlay
  import opened RootCache
  import F = KeyFile
  import opened Evm
  import opened TxPool
  import opened Tracing

  class MferBackend {
    const evm: MferEVM
    const pool: MferTxPool
    /** The refund counter found by the last reset. */
    ghost var since: nat

    ghost predicate Ready()
      reads this, pool, evm, evm.stateDB, evm.stateDB.state.Line()
    {
      pool.Valid() && evm.stateDB.Ready() && evm.batchSize >= 1
    }

    ghost function EnvNow(): Env
      reads evm, evm.stateDB, evm.stateDB.state.RootState()
    {
      evm.EnvOf(evm.stateDB.Base())
    }

    /** The backend as the value that Replay reasons about. */
    ghost function Abs(): Backend
      reads this, pool, evm, evm.stateDB, evm.stateDB.state.Above()
    {
      Backend(Machined(evm.stateDB, evm.gasPool), pool.txs, pool.execResults, since)
    }

    constructor (evm: MferEVM, pool: MferTxPool)
      ensures this.evm == evm && this.pool == pool && since == 0
    {
      this.evm, this.pool, since := evm, pool, 0;
    }

    /** SendTransaction, from the point where the transaction is signed. */
    method SendTransaction(tx: Tx, ghost env: Env)
      requires Ready() && env == EnvNow()
      modifies pool, evm`gasPool, evm.stateDB`state, evm.stateDB`refundGas, evm.stateDB.state
      modifies evm.stateDB.state.RootState()`scratchPad, evm.stateDB.state.RootState()`accessedAccounts
      ensures Ready() && env == EnvNow() && Abs() == Serve(env, old(Abs()), Send(tx))
      ensures evm.stateDB.state.RootState() == old(evm.stateDB.state.RootState())
      ensures evm.stateDB.state.RootState().Kept()
    {
      hide OverlayState.Healthy, OverlayState.Coherent, Exec, Flatten;
      ghost var m := Machined(evm.stateDB, evm.gasPool);
      ExecAllOne(env, true, tx, m);
      var res := evm.ExecuteTxs([tx], evm.stateDB, true, env.root);
      ghost var ls := evm.stateDB.Stack();
      pool.AddTx(tx, res[0]);
      assert evm.stateDB.Stack() == ls;
    }

    method ClearTxPool(ghost env: Env)
      requires Ready() && env == EnvNow()
      modifies this`since, pool, evm`gasPool, evm.stateDB, evm.stateDB.state.RootState()
      ensures Ready() && env == EnvNow() && Abs() == Serve(env, old(Abs()), Request.ClearTxPool)
      ensures pool.txs == [] && JustReset(env.root, env.fakes, evm.stateDB.View()) && evm.gasPool == env.gasLimit
      ensures evm.stateDB.keyFile == old(evm.stateDB.keyFile)
      ensures evm.stateDB.state.RootState() == old(evm.stateDB.state.RootState())
      ensures evm.stateDB.state.RootState().Kept()
      ensures evm.stateDB.state.RootState().Grew(FakeAccounts(env.fakes))
      ensures evm.stateDB.state.RootState().bn == old(evm.stateDB.state.RootState().bn)
    {
      hide OverlayState.Healthy, OverlayState.Coherent, Fresh, Flatten, JustReset, FakeAccounts, SlotRequests;
      var _ := pool.Reset();
      since := evm.stateDB.refundGas;
      evm.ResetToRoot(env.root);
    }

    /** ReExecTxPool, with the latest header. The block and its context may have changed; what was
        cached and executed before does not matter, nor whether an earlier refresh panicked. If the
        account fetch failed everything is executed over the old accounts; a failed slot fetch panics. */
    method ReExecTxPool(bn: nat, gasLimit: nat, apply: Tx -> Prog, slotFails: nat -> bool, accountFails: nat -> bool)
      returns (outcome: Refresh)
      requires pool.Valid() && evm.stateDB.state.Healthy() && evm.batchSize >= 1
      modifies this`since, pool, evm`gasPool, evm`gasLimit, evm`apply, evm.stateDB, evm.stateDB.state.RootState()
      ensures evm.stateDB.state.Healthy()
      ensures var root := old(evm.stateDB.state.RootState());
              outcome == RefreshOutcome(old(root.scratchPad), old(root.accessedAccounts), old(evm.stateDB.keyFile),
                                        evm.stateDB.maxKeyCache, evm.batchSize, slotFails, accountFails)
      ensures outcome != SlotsFailed ==> Ready() && Abs() == Serve(EnvNow(), old(Abs()), Request.ReExecTxPool)
      ensures outcome != SlotsFailed ==> EnvNow() == Env(evm.stateDB.Base(), apply, gasLimit, evm.fakes)
      ensures outcome == Refreshed ==> evm.stateDB.Base() == RootAt(evm.stateDB.state.RootState().upstream, bn)
      ensures outcome == AccountsFailed ==>
        HalfRefreshed(evm.stateDB.Base(), old(evm.stateDB.state.RootState().scratchPad),
                      evm.stateDB.state.RootState().upstream, bn)
      ensures outcome != SlotsFailed ==>
        Names(evm.stateDB.keyFile, old(evm.stateDB.state.RootState().scratchPad),
              F.Seeds(old(evm.stateDB.keyFile), evm.stateDB.maxKeyCache))
      ensures outcome != SlotsFailed ==>
        var seeded := SeedPad(old(evm.stateDB.state.RootState().scratchPad),
                              F.Seeds(old(evm.stateDB.keyFile), evm.stateDB.maxKeyCache));
        SlotRequests(seeded) <= SlotRequests(evm.stateDB.state.RootState().scratchPad) &&
        Remembered(old(evm.stateDB.state.RootState().accessedAccounts), seeded) <=
        evm.stateDB.state.RootState().accessedAccounts
      ensures outcome == SlotsFailed ==> evm.stateDB.keyFile == old(evm.stateDB.keyFile)
      ensures HashesFit(evm.stateDB.state.RootState().upstream, evm.stateDB.Base())
    {
      hide OverlayState.Healthy, OverlayState.Coherent, OverlayState.Stack, Fresh, Flatten, ExecAll,
        HalfRefreshed, RootAt, RefreshOutcome, Names, F.Seeds, HashesFit, JustReset, SeedPad, SlotRequests,
        FakeAccounts;
      since := evm.stateDB.refundGas;
      outcome := evm.Prepare(bn, gasLimit, apply, slotFails, accountFails);
      if outcome != SlotsFailed {
        ghost var root, pad := evm.stateDB.state.RootState(), evm.stateDB.state.RootState().scratchPad;
        ExecutePool(EnvNow());
        MoreSlots(pad, root.scratchPad);
      }
    }

    /** The pool's transactions on the prepared state; the results replace those filed before. */
    method ExecutePool(ghost env: Env)
      requires Ready() && env == EnvNow()
      modifies pool`execResults, evm`gasPool, evm.stateDB`state, evm.stateDB`refundGas, evm.stateDB.state
      modifies evm.stateDB.state.RootState()`scratchPad, evm.stateDB.state.RootState()`accessedAccounts
      ensures Ready() && env == EnvNow() && evm.stateDB.state.RootState() == old(evm.stateDB.state.RootState())
      ensures evm.stateDB.state.RootState().Kept()
      ensures (pool.execResults, Machined(evm.stateDB, evm.gasPool)) ==
        ExecAll(env, true, pool.txs, old(Machined(evm.stateDB, evm.gasPool)))
    {
      hide OverlayState.Healthy, OverlayState.Coherent, OverlayState.Stack, Flatten, ExecAll;
      var execResults := evm.ExecuteTxs(pool.txs, evm.stateDB, true, env.root);
      ghost var ls := evm.stateDB.Stack();
      pool.SetResults(execResults);
      assert evm.stateDB.Stack() == ls;
    }

    /** A funded clone of the root. */
    method FundedClone(ghost root: Root) returns (stateDB: OverlayStateDB)
      requires Ready() && root == evm.stateDB.Base()
      modifies evm.stateDB.state.RootState()`scratchPad, evm.stateDB.state.RootState()`accessedAccounts
      ensures Ready() && root == evm.stateDB.Base() && evm.stateDB.Stack() == old(evm.stateDB.Stack())
      ensures evm.stateDB.state.RootState().Kept()
      ensures stateDB.Ready() && fresh(stateDB) && fresh(stateDB.state) && root == stateDB.Base()
      ensures stateDB.state.RootState() == evm.stateDB.state.RootState()
      ensures JustReset(root, evm.fakes, stateDB.View()) && stateDB.refundGas == 0
      ensures Machined(stateDB, evm.gasPool) == Fresh(evm.EnvOf(root), 0).(gas := evm.gasPool)
    {
      hide OverlayState.Healthy, OverlayState.Coherent, OverlayState.Stack, Flatten, Funded, JustReset;
      evm.stateDB.state.Shape();
      stateDB := evm.stateDB.CloneFromRoot();
      stateDB.state.Shape();
      OverlayStateDB.OneBlank(stateDB.Stack());
      stateDB.InitFakeAccounts(evm.fakes);
      FreshIsReset(evm.EnvOf(root), 0);
      evm.stateDB.state.SharedRoot(stateDB.state);
    }

    /** The state before the traced transaction, on a clone of the root. */
    method Rebuild(txs: seq<Tx>, ghost env: Env) returns (stateDB: OverlayStateDB)
      requires Ready() && env == EnvNow()
      modifies evm`gasPool, evm.stateDB.state.RootState()`scratchPad, evm.stateDB.state.RootState()`accessedAccounts
      ensures Ready() && env == EnvNow() && evm.stateDB.Stack() == old(evm.stateDB.Stack())
      ensures evm.stateDB.state.RootState().Kept()
      ensures stateDB.Ready() && fresh(stateDB) && fresh(stateDB.state) && env.root == stateDB.Base()
      ensures stateDB.state.RootState() == evm.stateDB.state.RootState()
      ensures Machined(stateDB, evm.gasPool) == ExecAll(env, true, txs, Fresh(env, 0).(gas := old(evm.gasPool))).1
    {
      hide OverlayState.Healthy, OverlayState.Coherent, OverlayState.Stack, Flatten, Funded, ExecAll, JustReset;
      evm.stateDB.state.Shape();
      stateDB := FundedClone(env.root);
      stateDB.state.Shape();
      var _ := evm.ExecuteTxs(txs, stateDB, true, env.root);
      evm.stateDB.state.SharedRoot(stateDB.state);
    }

    /** TraceTransaction: rebuild the state before the transaction on a clone of the root, then
        call it there. The live state keeps its view and loses only gas. An unknown hash and a malformed
        tracer configuration are errors that take nothing. */
    method TraceTransaction(txHash: TxHash, tracerOk: bool, ghost env: Env) returns (result: Option<Outcome>)
      requires Ready() && env == EnvNow()
      modifies evm`gasPool, evm.stateDB.state.RootState()`scratchPad, evm.stateDB.state.RootState()`accessedAccounts
      ensures Ready() && env == EnvNow()
      ensures Abs() == if tracerOk then Serve(env, old(Abs()), Trace(txHash)) else old(Abs())
      ensures evm.stateDB.state.RootState().Kept()
      ensures var i := Find(pool.txs, txHash);
              result == if i == |pool.txs| || !tracerOk then None else Some(Traced(env, old(evm.gasPool), pool.txs, i))
    {
      hide OverlayState.Healthy, OverlayState.Coherent, OverlayState.Stack, OverlayState.Linked, OverlayState.Quiet,
        OverlayState.Tracked, Flatten, Funded, Fresh, ExecAll, Run, Cleared;
      evm.stateDB.state.Shape();
      ghost var ls := evm.stateDB.Stack();
      var i := pool.IndexOf(txHash);
      assert evm.stateDB.Stack() == ls;
      if i == |pool.txs| || !tracerOk {
        return None;
      }
      var stateDB := Rebuild(pool.txs[..i], env);
      var out := evm.DoCall(stateDB, pool.txs[i], env.root);
      evm.stateDB.state.SharedRoot(stateDB.state);
      assert evm.stateDB.Stack() == ls;
      result := Some(out);
    }

    /** Messages are executed as in this block. */
    ghost predicate ContextOf(b: Block)
      reads evm
    {
      evm.apply == b.apply && evm.gasLimit == b.gasLimit
    }

    /** The inner loop of traceBlocks. */
    method ReadTraces(txs: seq<Tx>, stateDB: OverlayStateDB) returns (results: seq<Option<Bytes>>)
      requires stateDB.Valid()
      ensures results == Traces(stateDB.View(), txs)
      ensures stateDB.Valid() && stateDB.Stack() == old(stateDB.Stack())
    {
      hide OverlayState.Healthy, Flatten;
      ghost var f := stateDB.View();
      results := [];
      for i := 0 to |txs|
        invariant stateDB.Valid() && stateDB.Stack() == old(stateDB.Stack()) && stateDB.View() == f
        invariant results == Traces(f, txs)[..i]
      {
        var receipt := stateDB.GetReceipt(txs[i].hash);
        if receipt.Some? && |receipt.value.logs| > 0 {
          results := results + [Some(receipt.value.logs[|receipt.value.logs| - 1].data)];
        } else {
          results := results + [None];
        }
      }
    }

    /** One block of traceBlocks: its context, a full gas pool, its transactions, their traces. */
    method TraceBlock(b: Block, stateDB: OverlayStateDB, tracerOk: bool, ghost job: Job)
      returns (results: seq<Option<Bytes>>)
      requires stateDB.Ready() && job.root == stateDB.Base() && job.fakes == evm.fakes && job.tracerOk == tracerOk
      modifies evm`gasPool, evm`gasLimit, evm`apply, stateDB`state, stateDB`refundGas, stateDB.state
      modifies stateDB.state.RootState()`scratchPad, stateDB.state.RootState()`accessedAccounts
      ensures stateDB.Ready() && job.root == stateDB.Base() && Grown(stateDB)
      ensures ContextOf(b)
      ensures var end := BlockEnd(job, b, old(Machined(stateDB, 0)));
              Machined(stateDB, evm.gasPool) == end && results == Traces(end.flat, b.txs)
    {
      hide OverlayState.Healthy, OverlayState.Coherent, Flatten, ExecTxs, ReadTrace;
      ghost var m, ls := Machined(stateDB, 0), stateDB.Stack();
      evm.SetVMContext(b.gasLimit, b.apply);
      evm.AddGasPool();
      assert stateDB.Stack() == ls && stateDB.refundGas == old(stateDB.refundGas);
      assert Machined(stateDB, evm.gasPool) == m.(gas := b.gasLimit);
      var _ := evm.ExecuteTxs(b.txs, stateDB, tracerOk, job.root);
      assert evm.EnvOf(job.root) == EnvAt(job, b);
      ghost var end := Machined(stateDB, evm.gasPool);
      results := ReadTraces(b.txs, stateDB);
      assert Machined(stateDB, evm.gasPool) == end;
    }

    /** The loop of traceBlocks: with no hash repeated every report is the transaction's own; with a
        malformed tracer configuration there are none. */
    method TraceAll(blocks: seq<Block>, stateDB: OverlayStateDB, tracerOk: bool, ghost job: Job)
      returns (txTraceResults: seq<seq<Option<Bytes>>>)
      requires stateDB.Ready() && job == Job(stateDB.Base(), evm.fakes, blocks, tracerOk)
      requires Machined(stateDB, 0) == Machine(BLANK, 0, 0)
      modifies evm`gasPool, evm`gasLimit, evm`apply, stateDB`state, stateDB`refundGas, stateDB.state
      modifies stateDB.state.RootState()`scratchPad, stateDB.state.RootState()`accessedAccounts
      ensures stateDB.Ready() && job.root == stateDB.Base() && Grown(stateDB)
      ensures |txTraceResults| == |blocks| && Reported(job, Machine(BLANK, 0, 0), txTraceResults)
      ensures blocks != [] ==> ContextOf(blocks[|blocks| - 1])
    {
      hide OverlayState.Healthy, OverlayState.Coherent, OverlayState.Stack, Flatten,
        Reported, BlockStart, BlockEnd, Traces;
      ghost var m := Machine(BLANK, 0, 0);
      txTraceResults := [];
      NothingReported(job, m);
      for i := 0 to |blocks|
        invariant stateDB.Ready() && job.root == stateDB.Base() && Grown(stateDB)
        invariant i < |blocks| ==> Machined(stateDB, 0).(gas := blocks[i].gasLimit) == BlockStart(job, i, m)
        invariant |txTraceResults| == i && Reported(job, m, txTraceResults)
        invariant i > 0 ==> ContextOf(blocks[i - 1])
      {
        ghost var at := Machined(stateDB, 0);
        NextStart(job, i, m, at);
        ReportsAreOwn(job, m, at, txTraceResults);
        var results := TraceBlock(blocks[i], stateDB, tracerOk, job);
        txTraceResults := txTraceResults + [results];
      }
    }

    /** All blocks run on one clone of the root, which leaves the live state alone. */
    method TraceOnClone(blocks: seq<Block>, tracerOk: bool, ghost root: Root)
      returns (txTraceResults: seq<seq<Option<Bytes>>>)
      requires Ready() && root == evm.stateDB.Base()
      modifies evm`gasPool, evm`gasLimit, evm`apply
      modifies evm.stateDB.state.RootState()`scratchPad, evm.stateDB.state.RootState()`accessedAccounts
      ensures Ready() && root == evm.stateDB.Base() && evm.stateDB.Stack() == old(evm.stateDB.Stack())
      ensures evm.stateDB.state.RootState().Kept()
      ensures |txTraceResults| == |blocks|
      ensures Reported(Job(root, evm.fakes, blocks, tracerOk), Machine(BLANK, 0, 0), txTraceResults)
      ensures blocks != [] ==> ContextOf(blocks[|blocks| - 1])
    {
      hide OverlayState.Healthy, OverlayState.Coherent, OverlayState.Stack, Flatten, Reported;
      evm.stateDB.state.Shape();
      var stateDB := evm.stateDB.CloneFromRoot();
      stateDB.state.Shape();
      OverlayStateDB.OneBlank(stateDB.Stack());
      txTraceResults := TraceAll(blocks, stateDB, tracerOk, Job(root, evm.fakes, blocks, tracerOk));
      evm.stateDB.state.SharedRoot(stateDB.state);
    }

    /** Two refreshes in a row go through if no call fails. */
    static lemma Succeeding(pad: Pad, accessed: set<Address>, more: set<Address>, file: string, max: nat,
                            batchSize: nat, slotFails: nat -> bool, accountFails: nat -> bool,
                            slotFails': nat -> bool, accountFails': nat -> bool)
      requires batchSize >= 1
      ensures (forall c :: !slotFails(c) && !accountFails(c) && !slotFails'(c) && !accountFails'(c)) ==>
        RefreshOutcome(pad, accessed, file, max, batchSize, slotFails, accountFails) == Refreshed &&
        RefreshOutcome(pad, more, file, max, batchSize, slotFails', accountFails') == Refreshed
    {
      hide RefreshOutcome;
      if forall c :: !slotFails(c) && !accountFails(c) && !slotFails'(c) && !accountFails'(c) {
        FetchesSucceed(pad, accessed, file, max, batchSize, slotFails, accountFails);
        FetchesSucceed(pad, more, file, max, batchSize, slotFails', accountFails');
      }
    }

    /** traceBlocks: refresh at the latest block, move the root to the block before the first one and
        refresh again, then trace. Whatever was cached before, the reports are those over the state the
        second refresh leaves: upstream at that block unless the account fetch failed. No blocks is an
        error. */
    method TraceBlocks(blocks: seq<Block>, tracerOk: bool, stateBN: nat, bn: nat, gasLimit: nat, apply: Tx -> Prog,
                       slotFails: nat -> bool, accountFails: nat -> bool,
                       slotFails': nat -> bool, accountFails': nat -> bool)
      returns (outcome: Refresh, txTraceResults: Option<seq<seq<Option<Bytes>>>>)
      requires evm.stateDB.state.Healthy() && evm.batchSize >= 1 && pool.Valid()
      modifies evm`gasPool, evm`gasLimit, evm`apply, evm.stateDB, evm.stateDB.state.RootState()
      ensures blocks == [] || outcome == SlotsFailed ==> txTraceResults == None
      ensures blocks == [] ==> outcome == Refreshed && unchanged(evm, evm.stateDB)
      ensures blocks == [] ==>
        evm.stateDB.Stack() == old(evm.stateDB.Stack()) && evm.stateDB.Base() == old(evm.stateDB.Base())
      ensures var root := old(evm.stateDB.state.RootState());
              var first := RefreshOutcome(old(root.scratchPad), old(root.accessedAccounts), old(evm.stateDB.keyFile),
                                          evm.stateDB.maxKeyCache, evm.batchSize, slotFails, accountFails);
              var second := RefreshOutcome(old(root.scratchPad), old(root.accessedAccounts) + FakeAccounts(evm.fakes),
                                           old(evm.stateDB.keyFile), evm.stateDB.maxKeyCache, evm.batchSize,
                                           slotFails', accountFails');
              && (blocks != [] ==> outcome == if first == SlotsFailed then SlotsFailed else second)
              && (blocks != [] && first == SlotsFailed ==> evm.stateDB.keyFile == old(evm.stateDB.keyFile))
              && (blocks != [] && first != SlotsFailed ==>
                    Names(evm.stateDB.keyFile, old(root.scratchPad),
                          F.Seeds(old(evm.stateDB.keyFile), evm.stateDB.maxKeyCache)))
      ensures blocks != [] && outcome != SlotsFailed ==>
        evm.stateDB.Stack() == [Derived(NO_TX)] && evm.stateDB.refundGas == old(evm.stateDB.refundGas) &&
        Abs().live.flat == BLANK && ContextOf(blocks[|blocks| - 1])
      ensures (forall c :: !slotFails(c) && !accountFails(c) && !slotFails'(c) && !accountFails'(c)) ==>
                outcome == Refreshed
      ensures blocks != [] && outcome != SlotsFailed ==>
        Ready() && txTraceResults.Some? && |txTraceResults.value| == |blocks| &&
        Reported(Job(evm.stateDB.Base(), evm.fakes, blocks, tracerOk), Machine(BLANK, 0, 0), txTraceResults.value)
      ensures blocks != [] && outcome == Refreshed ==>
        evm.stateDB.Base() == RootAt(evm.stateDB.state.RootState().upstream, stateBN)
    {
      hide OverlayState.Healthy, OverlayState.Coherent, OverlayState.Stack, Flatten, Reported, Fresh, RootAt,
        HalfRefreshed, Answering, RefreshOutcome, Names, Prefetched, F.Seeds, HashesFit, JustReset, FakeAccounts,
        AllCached;
      outcome, txTraceResults := Refreshed, None;
      if blocks == [] {
        return;
      }
      ghost var db, root := evm.stateDB, evm.stateDB.state.RootState();
      ghost var pad, accessed, file, max := root.scratchPad, root.accessedAccounts, db.keyFile, db.maxKeyCache;
      ghost var more := accessed + FakeAccounts(evm.fakes);
      Succeeding(pad, accessed, more, file, max, evm.batchSize, slotFails, accountFails, slotFails', accountFails');
      outcome := evm.Prepare(bn, gasLimit, apply, slotFails, accountFails);
      if outcome == SlotsFailed {
        return;
      }
      evm.SetBlockNumber(stateBN);
      RefreshAgain(pad, more, file, max, root.scratchPad, root.accessedAccounts, db.keyFile, evm.batchSize,
        slotFails', accountFails');
      outcome := evm.stateDB.InitState(true, false, evm.batchSize, slotFails', accountFails');
      if outcome == SlotsFailed {
        return;
      }
      var reports := TraceOnClone(blocks, tracerOk, evm.stateDB.Base());
      txTraceResults := Some(reports);
    }
  }
}
