/** mferevm/evm.go: running programs and messages against the state database. */
module Evm {
  import opened Words
  import opened Keys
  import opened Upstream
  import opened Layers
  import opened Programs
  import opened Execution
  import opened Overlay
  import opened OverlayDB
  import opened RootCache
  import F = KeyFile

  /** The line of layers only grew, by layers that are new, over the same root, which lost nothing. */
  twostate predicate Grown(db: OverlayStateDB)
    reads db, db.state.RootState()
  {
    && old(db.state.Line()) <= db.state.Line()
    && (forall i :: old(|db.state.Line()|) <= i < |db.state.Line()| ==> fresh(db.state.Line()[i]))
    && (db.state == old(db.state) || fresh(db.state))
    && db.state.RootState() == old(db.state.RootState()) && db.state.RootState().Kept()
  }

  ghost function Now(db: OverlayStateDB, gas: nat): Layered
    reads db, db.state.Above()
  {
    Layered(db.Stack(), db.refundGas, gas)
  }

  /** core.ApplyMessage: the program drives the database. What is left of the layers, the refund
      counter and the gas is what running the program on the value of the layers leaves. */
  method ApplyMessage(p: Prog, db: OverlayStateDB, gas: nat, ghost root: Root, ghost m: Layered)
    returns (out: Outcome, left: nat)
    requires db.Ready() && root == db.Base() && m == Now(db, gas)
    modifies db`state, db`refundGas, db.state
    modifies db.state.RootState()`scratchPad, db.state.RootState()`accessedAccounts
    ensures db.Ready() && root == db.Base() && Grown(db)
    ensures (out, Now(db, left)) == RunLayered(p, root, m)
    decreases p, 1
  {
    hide RunLayered, OverlayState.Healthy, OverlayState.Coherent;
    match p
    case Done(o) => out, left := Finish(o, db, gas, root, m);
    case Load(_, _) => out, left := ApplyRead(p, db, gas, root, m);
    case AskSuicided(_, _, _) => out, left := ApplyRead(p, db, gas, root, m);
    case ReadRefund(_) => out, left := ApplyCounter(p, db, gas, root, m);
    case Store(_, _, _) => out, left := ApplyWrite(p, db, gas, root, m);
    case Emit(_, _) => out, left := ApplyWrite(p, db, gas, root, m);
    case Refund(_, _) => out, left := ApplyCounter(p, db, gas, root, m);
    case BuyGas(_, _, _) => out, left := ApplyCounter(p, db, gas, root, m);
    case ReturnGas(_, _) => out, left := ApplyCounter(p, db, gas, root, m);
    case Call(body, c) => out, left := ApplyCall(body, c, db, gas, root, m);
  }

  method Finish(o: Outcome, db: OverlayStateDB, gas: nat, ghost root: Root, ghost m: Layered)
    returns (out: Outcome, left: nat)
    requires db.Ready() && root == db.Base() && m == Now(db, gas)
    ensures db.Ready() && root == db.Base() && Grown(db)
    ensures (out, Now(db, left)) == RunLayered(Done(o), root, m)
  {
    db.state.Shape();
    out, left := o, gas;
  }

  method ApplyRead(p: Prog, db: OverlayStateDB, gas: nat, ghost root: Root, ghost m: Layered)
    returns (out: Outcome, left: nat)
    requires p.Load? || p.AskSuicided?
    requires db.Ready() && root == db.Base() && m == Now(db, gas)
    modifies db`state, db`refundGas, db.state
    modifies db.state.RootState()`scratchPad, db.state.RootState()`accessedAccounts
    ensures db.Ready() && root == db.Base() && Grown(db)
    ensures (out, Now(db, left)) == RunLayered(p, root, m)
    decreases p, 0
  {
    hide Raw, Flatten, Walk, OverlayState.Healthy, OverlayState.Coherent, PutLayer, LogLayer, Suicided, Refunded;
    db.state.Shape();
    if p.Load? {
      var v := db.state.Get(p.key);
      if v in p.onValue {
        out, left := ApplyMessage(p.onValue[v], db, gas, root, m);
      } else {
        out, left := STUCK, gas;
      }
    } else {
      TopOfFlat(db.Stack());
      var dead := db.HasSuicided(p.account);
      if dead {
        out, left := ApplyMessage(p.yes, db, gas, root, m);
      } else {
        out, left := ApplyMessage(p.no, db, gas, root, m);
      }
    }
  }

  method ApplyWrite(p: Prog, db: OverlayStateDB, gas: nat, ghost root: Root, ghost m: Layered)
    returns (out: Outcome, left: nat)
    requires p.Store? || p.Emit?
    requires db.Ready() && root == db.Base() && m == Now(db, gas)
    modifies db`state, db`refundGas, db.state
    modifies db.state.RootState()`scratchPad, db.state.RootState()`accessedAccounts
    ensures db.Ready() && root == db.Base() && Grown(db)
    ensures (out, Now(db, left)) == RunLayered(p, root, m)
    decreases p, 0
  {
    hide Raw, Flatten, Walk, OverlayState.Healthy, OverlayState.Coherent, PutLayer, LogLayer, Suicided, Refunded;
    db.state.Shape();
    if p.Store? {
      db.state.Put(p.slot, p.val);
    } else {
      db.state.AppendLog(p.log);
    }
    out, left := ApplyMessage(p.next, db, gas, root, Now(db, gas));
  }

  /** The refund counter and the gas pool, which no layer holds. */
  method ApplyCounter(p: Prog, db: OverlayStateDB, gas: nat, ghost root: Root, ghost m: Layered)
    returns (out: Outcome, left: nat)
    requires p.Refund? || p.ReadRefund? || p.BuyGas? || p.ReturnGas?
    requires db.Ready() && root == db.Base() && m == Now(db, gas)
    modifies db`state, db`refundGas, db.state
    modifies db.state.RootState()`scratchPad, db.state.RootState()`accessedAccounts
    ensures db.Ready() && root == db.Base() && Grown(db)
    ensures (out, Now(db, left)) == RunLayered(p, root, m)
    decreases p, 0
  {
    hide Raw, Flatten, Walk, OverlayState.Healthy, OverlayState.Coherent;
    db.state.Shape();
    match p
    case Refund(delta, next) =>
      if delta >= 0 {
        db.AddRefund(delta);
      } else {
        db.SubRefund(-delta);
      }
      out, left := ApplyMessage(next, db, gas, root, Now(db, gas));
    case ReadRefund(c) =>
      if db.refundGas in c {
        out, left := ApplyMessage(c[db.refundGas], db, gas, root, m);
      } else {
        out, left := STUCK, gas;
      }
    case BuyGas(amount, ok, short) =>
      if amount <= gas {
        out, left := ApplyMessage(ok, db, gas - amount, root, Now(db, gas - amount));
      } else {
        out, left := ApplyMessage(short, db, gas, root, m);
      }
    case ReturnGas(amount, next) =>
      out, left := ApplyMessage(next, db, gas + amount, root, Now(db, gas + amount));
  }

  /** A nested call: snapshot, run the body, revert unless it ended well, go on with its outcome. */
  method ApplyCall(body: Prog, c: imap<Outcome, Prog>, db: OverlayStateDB, gas: nat, ghost root: Root, ghost m: Layered)
    returns (out: Outcome, left: nat)
    requires db.Ready() && root == db.Base() && m == Now(db, gas)
    modifies db`state, db`refundGas, db.state
    modifies db.state.RootState()`scratchPad, db.state.RootState()`accessedAccounts
    ensures db.Ready() && root == db.Base() && Grown(db)
    ensures (out, Now(db, left)) == RunLayered(Call(body, c), root, m)
    decreases Call(body, c), 0
  {
    hide Raw, Flatten, Walk, OverlayState.Healthy, OverlayState.Coherent, Pushed, PutLayer, LogLayer, Suicided;
    var called, remaining := ApplyBody(body, db, gas, root, m);
    db.state.Shape();
    if called in c {
      out, left := ApplyMessage(c[called], db, remaining, root, Now(db, remaining));
    } else {
      out, left := STUCK, remaining;
    }
  }

  /** The snapshot, the body and the revert. */
  method ApplyBody(body: Prog, db: OverlayStateDB, gas: nat, ghost root: Root, ghost m: Layered)
    returns (called: Outcome, left: nat)
    requires db.Ready() && root == db.Base() && m == Now(db, gas)
    modifies db`state, db`refundGas, db.state
    modifies db.state.RootState()`scratchPad, db.state.RootState()`accessedAccounts
    ensures db.Ready() && root == db.Base() && Grown(db) && m.layers != []
    ensures var (o, m1) := RunLayered(body, root, m.(layers := Pushed(m.layers)));
            called == o && Now(db, left) == if o.status.Ok? then m1 else m1.(layers := m1.layers[..|m.layers|])
    decreases body, 2
  {
    hide Raw, Flatten, Walk, OverlayState.Healthy, OverlayState.Coherent, RunLayered;
    db.state.Shape();
    var snapshot := db.Snapshot();
    db.state.Shape();
    called, left := ApplyMessage(body, db, gas, root, m.(layers := Pushed(m.layers)));
    if called.status != Ok {
      db.RevertToSnapshot(snapshot);
    }
  }

  /** The database and a gas pool as one flat machine. */
  ghost function Machined(db: OverlayStateDB, gas: nat): Machine
    reads db, db.state.Above()
  {
    Collapsed(Now(db, gas))
  }

  /** The layers a message is applied to. */
  function Cleaned(ls: seq<Layer>, from: Address): (r: seq<Layer>)
    requires ls != []
    ensures |r| == |ls|
  {
    OnTop(ls, PutLayer(Top(ls), Raw(CodeHash(from)), ZERO_HASH))
  }

  /** The head of ExecuteMsg: zero the sender's code hash, snapshot, collect logs for the hash. */
  method Begin(db: OverlayStateDB, tx: Tx, ghost root: Root) returns (snapshot: nat)
    requires db.Ready() && root == db.Base()
    modifies db`state, db.state
    ensures db.Ready() && root == db.Base() && Grown(db) && fresh(db.state) && old(db.Stack()) != []
    ensures db.Stack() == OnTop(Pushed(Cleaned(old(db.Stack()), tx.from)), Derived(tx.hash))
    ensures snapshot == |db.Stack()| == old(|db.Stack()|) + 1 && Live(snapshot, db.base, snapshot)
    ensures db.state.RootState() == old(db.state.RootState()) && old(db.state.Line()) == db.state.ancestors
  {
    hide Raw, Flatten, OverlayState.Healthy, OverlayState.Coherent, PutLayer;
    db.state.Shape();
    db.state.Put(CodeHash(tx.from), ZERO_HASH);
    db.state.Shape();
    snapshot := db.Snapshot();
    db.state.Shape();
    db.state.StartTx(tx.hash);
  }

  /** The head of ExecuteMsg when the tracer configuration is malformed. */
  method Abandon(db: OverlayStateDB, tx: Tx, ghost root: Root)
    requires db.Ready() && root == db.Base()
    modifies db`state, db.state
    ensures db.Ready() && root == db.Base() && Grown(db) && old(db.Stack()) != []
    ensures db.Stack() == Pushed(Cleaned(old(db.Stack()), tx.from))
  {
    hide Raw, Flatten, OverlayState.Healthy, OverlayState.Coherent, PutLayer;
    db.state.Shape();
    db.state.Put(CodeHash(tx.from), ZERO_HASH);
    db.state.Shape();
    var _ := db.Snapshot();
  }

  lemma AbandonedLayers(m: Layered, tx: Tx)
    requires m.layers != []
    ensures Collapsed(m.(layers := Pushed(Cleaned(m.layers, tx.from)))) == Abandoned(Collapsed(m), tx)
  {
    hide Raw, Flatten;
    FlattenPut(m.layers, Raw(CodeHash(tx.from)), ZERO_HASH);
    FlattenPushed(Cleaned(m.layers, tx.from));
  }

  /** The tail of ExecuteMsg: the trace becomes the last log, and the receipt is filed. */
  method FileResult(db: OverlayStateDB, tx: Tx, txIndex: nat, out: Outcome)
    requires db.Ready()
    modifies db.state`txLogs, db.state`receipts
    ensures db.Ready() && db.Base() == old(db.Base())
    ensures var ls := old(db.Stack());
            ls != [] &&
            var logged := OnTop(ls, LogLayer(Top(ls), TraceLog(out.trace)));
            var receipt := NewReceipt(tx, txIndex, out, WalkLogs(ls, tx.hash));
            db.Stack() == OnTop(logged, ReceiptLayer(Top(logged), tx.hash, receipt))
  {
    hide Raw, Flatten, OverlayState.Healthy, OverlayState.Coherent, WalkLogs, LogLayer, ReceiptLayer;
    db.state.Shape();
    ghost var ls := db.Stack();
    WalkLogsIsFlat(ls, tx.hash);
    var txExecutionLogs := db.GetLogs(tx.hash);
    assert db.Stack() == ls;
    db.state.AppendLog(TraceLog(out.trace));
    db.state.Shape();
    db.state.FileReceipt(tx.hash, NewReceipt(tx, txIndex, out, txExecutionLogs));
  }

  /** ExecLayered, put together from the head, the application and the tail. */
  lemma Assembled(env: Env, txIndex: nat, m: Layered, tx: Tx)
    requires m.layers != []
    ensures var start := OnTop(Pushed(Cleaned(m.layers, tx.from)), Derived(tx.hash));
            var (out, m1) := RunLayered(env.apply(tx), env.root, m.(layers := start));
            var ls := m1.layers;
            var logged := OnTop(ls, LogLayer(Top(ls), TraceLog(out.trace)));
            var filed := ReceiptLayer(Top(logged), tx.hash, NewReceipt(tx, txIndex, out, WalkLogs(ls, tx.hash)));
            ExecLayered(env, txIndex, m, tx) ==
              if out.status.Refused? then (Rejected, m1.(layers := ls[..|m.layers|]))
              else (ResultOf(out), m1.(layers := OnTop(logged, filed)))
  {
  }

  lemma LayersTell(env: Env, txIndex: nat, m: Layered, tx: Tx)
    requires m.layers != []
    ensures var (res, m') := ExecLayered(env, txIndex, m, tx);
            Tells(OutcomeOf(env, Collapsed(m), tx), tx, txIndex, res, ReceiptOf(Flatten(m'.layers), tx.hash))
  {
    hide ExecLayered, Exec, Flatten, Tells, OutcomeOf, ReceiptOf;
    ExecRefines(env, txIndex, m, tx);
    ResultTells(env, txIndex, Collapsed(m), tx);
  }

  class MferEVM {
    /** The live state; clones of it are passed explicitly. */
    const stateDB: OverlayStateDB
    var gasPool: nat
    /** The block context: its gas limit, and what a message does under it. */
    var gasLimit: nat
    var apply: Tx -> Prog
    const fakes: seq<(Address, nat)>
    const batchSize: nat

    constructor (stateDB: OverlayStateDB, gasLimit: nat, apply: Tx -> Prog, fakes: seq<(Address, nat)>, batchSize: nat)
      ensures this.stateDB == stateDB && gasPool == 0 && this.gasLimit == gasLimit
      ensures this.apply == apply && this.fakes == fakes && this.batchSize == batchSize
    {
      this.stateDB, gasPool, this.gasLimit := stateDB, 0, gasLimit;
      this.apply, this.fakes, this.batchSize := apply, fakes, batchSize;
    }

    ghost function EnvOf(root: Root): Env
      reads this`apply, this`gasLimit
    {
      Env(root, apply, gasLimit, fakes)
    }

    /** ExecuteMsg: zero the sender's code hash, snapshot, apply, and either revert or file the
        trace log and the receipt. With a malformed tracer configuration it returns right after the
        snapshot and leaves its layer behind. */
    method ExecuteMsg(db: OverlayStateDB, tx: Tx, txIndex: nat, tracerOk: bool, ghost root: Root)
      returns (res: ExecResult)
      requires db.Ready() && root == db.Base()
      modifies this`gasPool, db`state, db`refundGas, db.state
      modifies db.state.RootState()`scratchPad, db.state.RootState()`accessedAccounts
      ensures db.Ready() && root == db.Base() && Grown(db)
      ensures tracerOk ==> (res, Now(db, gasPool)) == ExecLayered(EnvOf(root), txIndex, old(Now(db, gasPool)), tx)
      ensures tracerOk ==> Tells(OutcomeOf(EnvOf(root), old(Machined(db, gasPool)), tx), tx, txIndex, res,
                                 ReceiptOf(db.View(), tx.hash))
      ensures !tracerOk ==>
        var m := old(Now(db, gasPool));
        m.layers != [] && (res, Now(db, gasPool)) == (Misconfigured, m.(layers := Pushed(Cleaned(m.layers, tx.from))))
    {
      hide Raw, Flatten, OverlayState.Healthy, OverlayState.Coherent, RunLayered, WalkLogs,
        PutLayer, LogLayer, ReceiptLayer, ExecLayered, Cleaned, NewReceipt, Tells, OutcomeOf, ReceiptOf;
      db.state.Shape();
      ghost var m := Now(db, gasPool);
      LayersTell(EnvOf(root), txIndex, m, tx);
      if !tracerOk {
        Abandon(db, tx, root);
        return Misconfigured;
      }
      Assembled(EnvOf(root), txIndex, m, tx);
      var snapshot, out := Attempt(db, tx, root, m);
      if out.status == Refused {
        db.RevertToSnapshot(snapshot);
        db.state.Shape();
        return Rejected;
      }
      FileResult(db, tx, txIndex, out);
      res := ResultOf(out);
    }

    /** ExecuteMsg up to the point where the outcome is looked at. */
    method Attempt(db: OverlayStateDB, tx: Tx, ghost root: Root, ghost m: Layered) returns (snapshot: nat, out: Outcome)
      requires db.Ready() && root == db.Base() && m == Now(db, gasPool)
      modifies this`gasPool, db`state, db`refundGas, db.state
      modifies db.state.RootState()`scratchPad, db.state.RootState()`accessedAccounts
      ensures db.Ready() && root == db.Base() && Grown(db)
      ensures snapshot == |m.layers| + 1 && Live(snapshot, db.base, |db.Stack()|)
      ensures db.state.Line()[..snapshot] == old(db.state.Line()) && m.layers != []
      ensures (out, Now(db, gasPool)) ==
        RunLayered(apply(tx), root, m.(layers := OnTop(Pushed(Cleaned(m.layers, tx.from)), Derived(tx.hash))))
    {
      hide Raw, Flatten, OverlayState.Healthy, OverlayState.Coherent, OverlayState.Stack, RunLayered, Cleaned;
      db.state.Shape();
      snapshot := Begin(db, tx, root);
      db.state.Shape();
      ghost var line := db.state.Line();
      out, gasPool := ApplyMessage(apply(tx), db, gasPool, root, Now(db, gasPool));
      db.state.Shape();
      assert line <= db.state.Line();
    }

    /** ExecuteMsg, told on the flat state. */
    method ExecuteFlat(db: OverlayStateDB, tx: Tx, txIndex: nat, tracerOk: bool, ghost root: Root)
      returns (res: ExecResult)
      requires db.Ready() && root == db.Base()
      modifies this`gasPool, db`state, db`refundGas, db.state
      modifies db.state.RootState()`scratchPad, db.state.RootState()`accessedAccounts
      ensures db.Ready() && root == db.Base() && Grown(db)
      ensures (res, Machined(db, gasPool)) ==
        if tracerOk then Exec(EnvOf(root), txIndex, old(Machined(db, gasPool)), tx)
        else (Misconfigured, Abandoned(old(Machined(db, gasPool)), tx))
    {
      hide OverlayState.Healthy, OverlayState.Coherent, ExecLayered, Exec, Flatten, Abandoned, Cleaned;
      db.state.Shape();
      ghost var m := Now(db, gasPool);
      ExecRefines(EnvOf(root), txIndex, m, tx);
      AbandonedLayers(m, tx);
      res := ExecuteMsg(db, tx, txIndex, tracerOk, root);
    }

    /** One warm-up worker: a clone of the state and a share of the queue, each message with its
        own unbounded gas pool. Whatever it does, the state it cloned answers as before. */
    method WarmUpWorker(txs: seq<Tx>, stateDB: OverlayStateDB, ghost root: Root)
      requires stateDB.Ready() && root == stateDB.Base()
      modifies stateDB.state.RootState()`scratchPad, stateDB.state.RootState()`accessedAccounts
      ensures stateDB.Ready() && root == stateDB.Base() && stateDB.Stack() == old(stateDB.Stack())
      ensures stateDB.state.RootState().Kept()
    {
      hide Raw, OverlayState.Healthy, OverlayState.Coherent, RunLayered, Flatten;
      stateDB.state.Shape();
      var db := stateDB.Clone();
      for i := 0 to |txs|
        invariant db.Ready() && root == db.Base() && fresh(db) && fresh(db.state)
        invariant db.state.RootState() == stateDB.state.RootState()
        invariant unchanged(stateDB.state.Above()) && stateDB.state.RootState().Kept()
      {
        WarmUpMessage(txs[i], db, root);
      }
      stateDB.state.SharedRoot(db.state);
    }

    /** One message of a worker. */
    method WarmUpMessage(tx: Tx, db: OverlayStateDB, ghost root: Root)
      requires db.Ready() && root == db.Base()
      modifies db`state, db`refundGas, db.state
      modifies db.state.RootState()`scratchPad, db.state.RootState()`accessedAccounts
      ensures db.Ready() && root == db.Base() && Grown(db)
    {
      hide Raw, OverlayState.Healthy, OverlayState.Coherent, RunLayered, Flatten;
      db.state.Shape();
      db.StartLogCollection(tx.hash);
      db.state.Shape();
      var _, _ := ApplyMessage(apply(tx), db, TWO_64 - 1, root, Now(db, TWO_64 - 1));
    }

    /** WarmUpCache: twenty workers share the queue. Here the workers take their shares one after the
        other, in any sizes; WarmUp treats every interleaving of their steps. */
    method WarmUpCache(txs: seq<Tx>, stateDB: OverlayStateDB, ghost root: Root)
      requires stateDB.Ready() && root == stateDB.Base()
      modifies stateDB.state.RootState()`scratchPad, stateDB.state.RootState()`accessedAccounts
      ensures stateDB.Ready() && root == stateDB.Base() && stateDB.Stack() == old(stateDB.Stack())
      ensures stateDB.state.RootState().Kept()
    {
      hide OverlayState.Healthy, OverlayState.Coherent;
      var taken := 0;
      for worker := 0 to 20
        invariant 0 <= taken <= |txs|
        invariant stateDB.Ready() && root == stateDB.Base() && stateDB.Stack() == old(stateDB.Stack())
        invariant stateDB.state.RootState().Kept()
      {
        var share :| 0 <= share <= |txs| - taken;
        if worker == 19 {
          share := |txs| - taken;
        }
        WarmUpWorker(txs[taken..taken + share], stateDB, root);
        taken := taken + share;
      }
    }

    /** ExecuteTxs: warm up for the first hundred, execute in order. The results and the state are
        those of the fold of Exec; warming up does not show. */
    method ExecuteTxs(txs: seq<Tx>, db: OverlayStateDB, tracerOk: bool, ghost root: Root)
      returns (execResults: seq<ExecResult>)
      requires db.Ready() && root == db.Base()
      modifies this`gasPool, db`state, db`refundGas, db.state
      modifies db.state.RootState()`scratchPad, db.state.RootState()`accessedAccounts
      ensures db.Ready() && root == db.Base() && Grown(db)
      ensures (execResults, Machined(db, gasPool)) == ExecTxs(EnvOf(root), tracerOk, txs, old(Machined(db, gasPool)))
    {
      hide OverlayState.Healthy, OverlayState.Coherent, Exec, Flatten, ExecTxs, Abandoned;
      ghost var m := Machined(db, gasPool);
      execResults := [];
      NoTxs(EnvOf(root), tracerOk, m);
      for i := 0 to |txs|
        invariant db.Ready() && root == db.Base() && Grown(db)
        invariant (execResults, Machined(db, gasPool)) == ExecTxs(EnvOf(root), tracerOk, txs[..i], m)
      {
        if i < 100 {
          WarmUpClone(txs[i..], db, root);
        }
        ghost var before := Machined(db, gasPool);
        var result := ExecuteFlat(db, txs[i], i, tracerOk, root);
        execResults := execResults + [result];
        ExecTxsSnoc(EnvOf(root), tracerOk, txs, i, m);
      }
      assert txs[..|txs|] == txs;
    }

    static lemma NoTxs(env: Env, tracerOk: bool, m: Machine)
      ensures ExecTxs(env, tracerOk, [], m) == ([], m)
    {
    }

    /** WarmUpCache is handed a clone. */
    method WarmUpClone(txs: seq<Tx>, db: OverlayStateDB, ghost root: Root)
      requires db.Ready() && root == db.Base()
      modifies db.state.RootState()`scratchPad, db.state.RootState()`accessedAccounts
      ensures db.Ready() && root == db.Base() && db.Stack() == old(db.Stack()) && db.state.RootState().Kept()
    {
      hide OverlayState.Healthy, OverlayState.Coherent;
      db.state.Shape();
      var clone := db.Clone();
      WarmUpCache(txs, clone, root);
      db.state.SharedRoot(clone.state);
    }

    /** ResetToRoot: the machine is fresh but for the refund counter. */
    method ResetToRoot(ghost root: Root)
      requires stateDB.Ready() && root == stateDB.Base() && batchSize >= 1
      modifies this`gasPool, stateDB, stateDB.state.RootState()
      ensures stateDB.Ready() && root == stateDB.Base() && fresh(stateDB.state)
      ensures stateDB.state.RootState() == old(stateDB.state.RootState())
      ensures Machined(stateDB, gasPool) == Fresh(EnvOf(root), old(stateDB.refundGas))
      ensures JustReset(root, fakes, stateDB.View())
      ensures gasPool == gasLimit && stateDB.refundGas == old(stateDB.refundGas)
      ensures stateDB.keyFile == old(stateDB.keyFile)
      ensures stateDB.state.RootState().Kept() && stateDB.state.RootState().Grew(FakeAccounts(fakes))
      ensures stateDB.state.RootState().bn == old(stateDB.state.RootState().bn)
    {
      hide OverlayState.Healthy, OverlayState.Coherent, Flatten, Funded, JustReset, FakeAccounts, SlotRequests;
      FreshIsReset(EnvOf(root), stateDB.refundGas);
      var _ := stateDB.InitState(false, false, batchSize, _ => false, _ => false);
      stateDB.state.Shape();
      stateDB.InitFakeAccounts(fakes);
      gasPool := gasLimit;
    }

    /** setVMContext and SetVMContextByBlockHeader. */
    method SetVMContext(gasLimit: nat, apply: Tx -> Prog)
      modifies this`gasLimit, this`apply
      ensures this.gasLimit == gasLimit && this.apply == apply
    {
      this.gasLimit, this.apply := gasLimit, apply;
    }

    /** SetBlockNumber writes through the pointer that the root reads: from now on reads return what was
        cached at the old block, and what is fetched at the new one. */
    method SetBlockNumber(bn: nat)
      requires stateDB.state.Healthy()
      modifies stateDB.state.RootState()`bn, stateDB.state.RootState()`view
      ensures stateDB.state.Healthy() && stateDB.state.RootState().Coherent()
      ensures stateDB.state.RootState().bn == bn && stateDB.Stack() == old(stateDB.Stack())
      ensures stateDB.Base() == Answering(stateDB.state.RootState().scratchPad, stateDB.state.RootState().upstream, bn)
    {
      hide OverlayState.Healthy, Flatten, Answering, Raw;
      stateDB.state.RootHealthy();
      stateDB.state.Shape();
      var rootState := stateDB.state.GetRootState();
      rootState.bn := bn;
      rootState.view := Answering(rootState.scratchPad, rootState.upstream, bn);
      rootState.RootStaysHealthy();
      stateDB.state.SharedRoot(rootState);
      OverlayStateDB.AnsweringAnswers(rootState.scratchPad, rootState.upstream, bn);
    }

    method AddGasPool()
      modifies this`gasPool
      ensures gasPool == gasLimit
    {
      gasPool := gasLimit;
    }

    /** The state part of Prepare, given the latest header: move to its block, refetch, fund, refill.
        Whatever was cached and executed before, the machine is then fresh over the new root, but for
        the refund counter; the new root is upstream at that block, or, if the account fetch failed, its
        slots with the accounts cached before. A failed slot fetch panics. */
    method Prepare(bn: nat, gasLimit: nat, apply: Tx -> Prog, slotFails: nat -> bool, accountFails: nat -> bool)
      returns (outcome: Refresh)
      requires stateDB.state.Healthy() && batchSize >= 1
      modifies this`gasPool, this`gasLimit, this`apply, stateDB, stateDB.state.RootState()
      ensures this.gasLimit == gasLimit && this.apply == apply && stateDB.state.Healthy()
      ensures var root := old(stateDB.state.RootState());
              outcome == RefreshOutcome(old(root.scratchPad), old(root.accessedAccounts), old(stateDB.keyFile),
                                        stateDB.maxKeyCache, batchSize, slotFails, accountFails)
      ensures stateDB.state.RootState() == old(stateDB.state.RootState())
      ensures outcome == Refreshed ==> stateDB.Base() == RootAt(stateDB.state.RootState().upstream, bn)
      ensures outcome == AccountsFailed ==>
        HalfRefreshed(stateDB.Base(), old(stateDB.state.RootState().scratchPad), stateDB.state.RootState().upstream, bn)
      ensures outcome != SlotsFailed ==>
        stateDB.Ready() && fresh(stateDB.state) && stateDB.state.RootState().bn == bn &&
        Machined(stateDB, gasPool) == Fresh(EnvOf(stateDB.Base()), old(stateDB.refundGas))
      ensures outcome != SlotsFailed ==>
        JustReset(stateDB.Base(), fakes, stateDB.View()) && gasPool == gasLimit &&
        stateDB.refundGas == old(stateDB.refundGas)
      ensures outcome != SlotsFailed ==>
        Names(stateDB.keyFile, old(stateDB.state.RootState().scratchPad),
              F.Seeds(old(stateDB.keyFile), stateDB.maxKeyCache))
      ensures outcome != SlotsFailed ==>
        Prefetched(old(stateDB.state.RootState().scratchPad),
                   old(stateDB.state.RootState().accessedAccounts) + FakeAccounts(fakes),
                   stateDB.state.RootState().scratchPad, stateDB.state.RootState().accessedAccounts,
                   F.Seeds(old(stateDB.keyFile), stateDB.maxKeyCache))
      ensures outcome == SlotsFailed ==> stateDB.keyFile == old(stateDB.keyFile)
      ensures HashesFit(stateDB.state.RootState().upstream, stateDB.Base())
    {
      hide OverlayState.Healthy, OverlayState.Coherent, OverlayState.Stack, Flatten, Funded, HalfRefreshed,
        Answering, RootAt, RefreshOutcome, JustReset, Names, F.Seeds, HashesFit,
        SlotRequests, SeedPad, FakeAccounts;
      SetVMContext(gasLimit, apply);
      SetBlockNumber(bn);
      outcome := stateDB.InitState(true, false, batchSize, slotFails, accountFails);
      if outcome != SlotsFailed {
        stateDB.state.Shape();
        stateDB.InitFakeAccounts(fakes);
        AddGasPool();
        FreshIsReset(EnvOf(stateDB.Base()), stateDB.refundGas);
      }
    }

    /** DoCall: the message on the given state with an unbounded gas pool of its own. */
    method DoCall(db: OverlayStateDB, tx: Tx, ghost root: Root) returns (out: Outcome)
      requires db.Ready() && root == db.Base()
      modifies db`state, db`refundGas, db.state
      modifies db.state.RootState()`scratchPad, db.state.RootState()`accessedAccounts
      ensures db.Ready() && root == db.Base() && Grown(db)
      ensures var m := old(Machined(db, TWO_64 - 1));
              out == Run(apply(tx), root, m.(flat := Cleared(m.flat, tx.from))).0
    {
      hide Raw, OverlayState.Healthy, OverlayState.Coherent, RunLayered, Run, Flatten;
      db.state.Shape();
      db.Set(CodeHash(tx.from), ZERO_HASH);
      db.state.Shape();
      ghost var m := Now(db, TWO_64 - 1);
      RunRefines(apply(tx), root, m);
      var left;
      out, left := ApplyMessage(apply(tx), db, TWO_64 - 1, root, m);
    }
  }
}
