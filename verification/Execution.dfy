/** Executing messages on the forked state (mferevm/evm.go) and what is read back from it. */
module Execution {
  import opened Words
  import opened Keys
  import opened Upstream
  import opened Layers
  import opened Programs

  datatype Tx = Tx(hash: TxHash, from: Address, payload: Bytes)

  /** Everything fixed between two resets: the root view, core.ApplyMessage under the current
      block context, the block's gas limit and the accounts funded after a reset. */
  datatype Env = Env(root: Root, apply: Tx -> Prog, gasLimit: nat, fakes: seq<(Address, nat)>)

  /** Misconfigured is the early error of a tracer configuration that cannot be used. */
  datatype ExecResult = Succeeded | Reverted | Rejected | Misconfigured

  const TRACE_ADDRESS: Address := [
    0x3f, 0xe7, 0x5a, 0xfe, 0, 0, 0, 0, 0x3f, 0xe7, 0x5a, 0xfe, 0, 0, 0, 0, 0x3f, 0xe7, 0x5a, 0xfe]

  // Keccak-256 of "TRACE".
  const TRACE_TOPIC: Hash := [
    0x36, 0x3d, 0x74, 0xe4, 0xc5, 0x21, 0x9e, 0xe5, 0x2a, 0x02, 0xd5, 0x30, 0xb0, 0x88, 0xf2, 0x23,
    0xe9, 0x74, 0xa9, 0x18, 0x8d, 0x87, 0xe6, 0xd7, 0x95, 0x33, 0x3b, 0x1e, 0xf5, 0xe6, 0xee, 0x4c]

  function TraceLog(trace: Bytes): Log {
    Log(TRACE_ADDRESS, [TRACE_TOPIC], trace)
  }

  function ResultOf(out: Outcome): ExecResult {
    match out.status
    case Ok => Succeeded
    case Failed => Reverted
    case Refused => Rejected
  }

  /** The sender's code hash is zeroed before the snapshot is taken. */
  function Cleared(f: Flat, from: Address): Flat {
    PutFlat(f, Raw(CodeHash(from)), ZERO_HASH)
  }

  /** The state the message is applied to: cleared, snapshotted, collecting logs for this hash. */
  function Prepared(m: Machine, tx: Tx): Machine {
    m.(flat := StartFlat(SnapFlat(Cleared(m.flat, tx.from)), tx.hash))
  }

  function OutcomeOf(env: Env, m: Machine, tx: Tx): Outcome {
    Run(env.apply(tx), env.root, Prepared(m, tx)).0
  }

  function NewReceipt(tx: Tx, index: nat, out: Outcome, logs: seq<Log>): Receipt {
    Receipt(tx.hash, out.status.Ok?, out.gasUsed, index, logs + [TraceLog(out.trace)])
  }

  /** ExecuteMsg on the flat state. */
  function Exec(env: Env, index: nat, m: Machine, tx: Tx): (ExecResult, Machine) {
    var (out, m1) := Run(env.apply(tx), env.root, Prepared(m, tx));
    if out.status.Refused? then
      (Rejected, m1.(flat := Cleared(m.flat, tx.from)))
    else
      var receipt := NewReceipt(tx, index, out, LogsAt(m1.flat.logs, tx.hash));
      (ResultOf(out), m1.(flat := ReceiptFlat(LogFlat(m1.flat, TraceLog(out.trace)), tx.hash, receipt)))
  }

  /** ExecuteMsg on the layers: a snapshot layer is pushed and stays unless the message is refused. */
  function ExecLayered(env: Env, index: nat, m: Layered, tx: Tx): (r: (ExecResult, Layered))
    requires m.layers != []
    ensures r.1.layers != []
  {
    var cleared := OnTop(m.layers, PutLayer(Top(m.layers), Raw(CodeHash(tx.from)), ZERO_HASH));
    var start := OnTop(Pushed(cleared), Derived(tx.hash));
    var (out, m1) := RunLayered(env.apply(tx), env.root, m.(layers := start));
    if out.status.Refused? then
      (Rejected, m1.(layers := m1.layers[..|cleared|]))
    else
      var logged := OnTop(m1.layers, LogLayer(Top(m1.layers), TraceLog(out.trace)));
      var receipt := NewReceipt(tx, index, out, WalkLogs(m1.layers, tx.hash));
      (ResultOf(out), m1.(layers := OnTop(logged, ReceiptLayer(Top(logged), tx.hash, receipt))))
  }

  lemma PreparedLayers(env: Env, m: Layered, tx: Tx)
    requires m.layers != []
    ensures var cleared := OnTop(m.layers, PutLayer(Top(m.layers), Raw(CodeHash(tx.from)), ZERO_HASH));
            var start := OnTop(Pushed(cleared), Derived(tx.hash));
            && Flatten(cleared) == Cleared(Flatten(m.layers), tx.from)
            && Collapsed(m.(layers := start)) == Prepared(Collapsed(m), tx)
            && RunLayered(env.apply(tx), env.root, m.(layers := start)).1.layers[..|cleared|] == cleared
  {
    var cleared := OnTop(m.layers, PutLayer(Top(m.layers), Raw(CodeHash(tx.from)), ZERO_HASH));
    var start := OnTop(Pushed(cleared), Derived(tx.hash));
    FlattenPut(m.layers, Raw(CodeHash(tx.from)), ZERO_HASH);
    FlattenPushed(cleared);
    FlattenStart(Pushed(cleared), tx.hash);
    RunKeepsBelow(env.apply(tx), env.root, m.(layers := start));
    assert start[..|cleared|] == cleared;
  }

  /** Executing on the layers and on the flat state agree. */
  lemma ExecRefines(env: Env, index: nat, m: Layered, tx: Tx)
    requires m.layers != []
    ensures var (res, m') := ExecLayered(env, index, m, tx);
            Exec(env, index, Collapsed(m), tx) == (res, Collapsed(m'))
  {
    var cleared := OnTop(m.layers, PutLayer(Top(m.layers), Raw(CodeHash(tx.from)), ZERO_HASH));
    var start := OnTop(Pushed(cleared), Derived(tx.hash));
    PreparedLayers(env, m, tx);
    RunRefines(env.apply(tx), env.root, m.(layers := start));
    var (out, m1) := RunLayered(env.apply(tx), env.root, m.(layers := start));
    if !out.status.Refused? {
      var logged := OnTop(m1.layers, LogLayer(Top(m1.layers), TraceLog(out.trace)));
      WalkLogsIsFlat(m1.layers, tx.hash);
      FlattenLog(m1.layers, TraceLog(out.trace));
      FlattenReceipt(logged, tx.hash, NewReceipt(tx, index, out, WalkLogs(m1.layers, tx.hash)));
    }
  }

  /** Rejection atomicity: a refused message, whatever it wrote and however deep it had nested,
      leaves the very layers it found, but for the zeroed code hash of its sender. */
  lemma RejectionAtomic(env: Env, index: nat, m: Layered, tx: Tx, k: ReadKey, h: TxHash)
    requires m.layers != [] && ExecLayered(env, index, m, tx).0.Rejected?
    ensures var ls := ExecLayered(env, index, m, tx).1.layers;
            && ls == OnTop(m.layers, PutLayer(Top(m.layers), Raw(CodeHash(tx.from)), ZERO_HASH))
            && |ls| == |m.layers|
            && WalkLogs(ls, h) == WalkLogs(m.layers, h)
            && WalkReceipt(ls, h) == WalkReceipt(m.layers, h)
            && Top(ls).cur == Top(m.layers).cur
            && Walk(env.root, ls, k) ==
                 if k == CodeHash(tx.from) then ZERO_HASH else Walk(env.root, m.layers, k)
  {
    hide Raw, RunLayered, Walk, WalkLogs, WalkReceipt, Flatten;
    RejectionRestores(env, index, m, tx);
    var cleared := PutLayer(Top(m.layers), Raw(CodeHash(tx.from)), ZERO_HASH);
    TopWalks(env.root, m.layers, cleared, k, h);
    RawInjective(k, CodeHash(tx.from));
  }

  lemma RejectionRestores(env: Env, index: nat, m: Layered, tx: Tx)
    requires m.layers != [] && ExecLayered(env, index, m, tx).0.Rejected?
    ensures ExecLayered(env, index, m, tx).1.layers ==
            OnTop(m.layers, PutLayer(Top(m.layers), Raw(CodeHash(tx.from)), ZERO_HASH))
  {
    hide Raw, RunLayered, Flatten;
    PreparedLayers(env, m, tx);
  }

  /** Changing the top pad alone shows in no log and no receipt, and in reads only where it differs. */
  lemma TopWalks(root: Root, ls: seq<Layer>, l: Layer, k: ReadKey, h: TxHash)
    requires ls != [] && l.logs == Top(ls).logs && l.receipts == Top(ls).receipts
    ensures WalkLogs(OnTop(ls, l), h) == WalkLogs(ls, h) && WalkReceipt(OnTop(ls, l), h) == WalkReceipt(ls, h)
    ensures Raw(k) in l.pad ==> Walk(root, OnTop(ls, l), k) == l.pad[Raw(k)]
    ensures (Raw(k) in l.pad <==> Raw(k) in Top(ls).pad) &&
            (Raw(k) in l.pad ==> l.pad[Raw(k)] == Top(ls).pad[Raw(k)]) ==>
              Walk(root, OnTop(ls, l), k) == Walk(root, ls, k)
  {
    hide Raw;
    assert OnTop(ls, l)[..|ls| - 1] == ls[..|ls| - 1];
  }

  // ----- ExecuteTxs -----

  /** Executing a list in order; `indexed` tells whether receipt i is numbered i or 0, since a
      transaction sent on its own is always number 0 of its list. */
  function ExecAll(env: Env, indexed: bool, txs: seq<Tx>, m: Machine): (r: (seq<ExecResult>, Machine))
    ensures |r.0| == |txs|
  {
    if txs == [] then ([], m)
    else
      var n := |txs| - 1;
      var (results, m1) := ExecAll(env, indexed, txs[..n], m);
      var (res, m2) := Exec(env, if indexed then n else 0, m1, txs[n]);
      (results + [res], m2)
  }

  /** A malformed tracer configuration ends ExecuteMsg after its snapshot: the sender's code hash is
      zeroed, the snapshot's layer stays, nothing is executed and nothing filed. */
  function Abandoned(m: Machine, tx: Tx): Machine {
    m.(flat := SnapFlat(Cleared(m.flat, tx.from)))
  }

  function AbandonAll(txs: seq<Tx>, m: Machine): (r: (seq<ExecResult>, Machine))
    ensures |r.0| == |txs|
    ensures forall i :: 0 <= i < |txs| ==> r.0[i] == Misconfigured
    ensures r.1.flat.logs == m.flat.logs && r.1.flat.receipts == m.flat.receipts
  {
    if txs == [] then ([], m)
    else
      var n := |txs| - 1;
      var (results, m1) := AbandonAll(txs[..n], m);
      (results + [Misconfigured], Abandoned(m1, txs[n]))
  }

  /** ExecuteTxs under a tracer configuration, which is fine for all transactions or for none. */
  function ExecTxs(env: Env, tracerOk: bool, txs: seq<Tx>, m: Machine): (seq<ExecResult>, Machine) {
    if tracerOk then ExecAll(env, true, txs, m) else AbandonAll(txs, m)
  }

  lemma ExecTxsSnoc(env: Env, tracerOk: bool, txs: seq<Tx>, i: nat, m: Machine)
    requires i < |txs|
    ensures var (results, m1) := ExecTxs(env, tracerOk, txs[..i], m);
            var (res, m2) := if tracerOk then Exec(env, i, m1, txs[i]) else (Misconfigured, Abandoned(m1, txs[i]));
            ExecTxs(env, tracerOk, txs[..i + 1], m) == (results + [res], m2)
  {
    hide Exec, Abandoned;
    if tracerOk {
      ExecAllSnoc(env, true, txs, i, m);
    } else {
      assert txs[..i + 1][..i] == txs[..i];
    }
  }

  /** Executing one more transaction of a list. */
  lemma ExecAllSnoc(env: Env, indexed: bool, txs: seq<Tx>, i: nat, m: Machine)
    requires i < |txs|
    ensures var (results, m1) := ExecAll(env, indexed, txs[..i], m);
            var (res, m2) := Exec(env, if indexed then i else 0, m1, txs[i]);
            ExecAll(env, indexed, txs[..i + 1], m) == (results + [res], m2)
  {
    hide Exec;
    assert txs[..i + 1][..i] == txs[..i];
  }

  function Before(env: Env, txs: seq<Tx>, i: nat, m: Machine): Machine
    requires i <= |txs|
  {
    ExecAll(env, true, txs[..i], m).1
  }

  /** What ExecuteMsg adds to the logs and receipts: for an accepted message the logs that its run
      left behind and then its trace, filed under its hash, and a receipt; for a refused one
      nothing. Other hashes keep theirs. */
  lemma ExecLogs(env: Env, index: nat, m: Machine, tx: Tx, h: TxHash)
    ensures var (res, m') := Exec(env, index, m, tx);
            var added := if res.Rejected? then [] else
                           Emitted(env.apply(tx), env.root, Prepared(m, tx)) +
                           [TraceLog(OutcomeOf(env, m, tx).trace)];
            && LogsAt(m'.flat.logs, h) == LogsAt(m.flat.logs, h) + (if h == tx.hash then added else [])
            && (h != tx.hash || res.Rejected? ==>
                  (h in m'.flat.receipts <==> h in m.flat.receipts) &&
                  (h in m.flat.receipts ==> m'.flat.receipts[h] == m.flat.receipts[h]))
            && (!res.Rejected? ==> tx.hash in m'.flat.receipts)
  {
    RunAppends(env.apply(tx), env.root, Prepared(m, tx));
  }

  // ----- What a message meets, and what is told of it -----

  /** A message meets every read as it was, but for its sender's code hash, which is zero; no account is
      marked, and the logs and receipts are those of the messages before. */
  lemma MessageMeets(env: Env, m: Machine, tx: Tx, k: ReadKey, a: Address)
    ensures var p := Prepared(m, tx);
            && Read(env.root, p.flat, k) == (if k == CodeHash(tx.from) then Zeros(32) else Read(env.root, m.flat, k))
            && !Suicided(p.flat.top, a)
            && p.flat.logs == m.flat.logs && p.flat.receipts == m.flat.receipts && p.flat.cur == tx.hash
            && p.refund == m.refund && p.gas == m.gas
  {
    hide Raw;
    RawInjective(k, CodeHash(tx.from));
  }

  /** A message abandoned for its tracer configuration leaves every read as it was but for that hash, and
      nothing under any hash. */
  lemma AbandonedReads(env: Env, m: Machine, tx: Tx, k: ReadKey)
    ensures var p := Abandoned(m, tx);
            && Read(env.root, p.flat, k) == (if k == CodeHash(tx.from) then Zeros(32) else Read(env.root, m.flat, k))
            && p.flat.logs == m.flat.logs && p.flat.receipts == m.flat.receipts && p.flat.cur == m.flat.cur
            && p.refund == m.refund && p.gas == m.gas
  {
    hide Raw;
    RawInjective(k, CodeHash(tx.from));
  }

  /** The result and the receipt tell how the run ended: the result distinguishes the three statuses, and
      unless the message was refused there is a receipt under its hash that says whether the run went
      well, what gas it used and what its trace was. */
  ghost predicate Tells(out: Outcome, tx: Tx, index: nat, res: ExecResult, receipt: Option<Receipt>) {
    && (res == Succeeded <==> out.status == Ok)
    && (res == Reverted <==> out.status == Failed)
    && (res == Rejected <==> out.status == Refused)
    && (out.status != Refused ==>
          receipt.Some? &&
          var r := receipt.value;
          && r.txHash == tx.hash && r.txIndex == index
          && (r.success <==> out.status == Ok) && r.gasUsed == out.gasUsed
          && r.logs != [] && r.logs[|r.logs| - 1] == Log(TRACE_ADDRESS, [TRACE_TOPIC], out.trace))
  }

  lemma ResultTells(env: Env, index: nat, m: Machine, tx: Tx)
    ensures var (res, m') := Exec(env, index, m, tx);
            Tells(OutcomeOf(env, m, tx), tx, index, res, ReceiptOf(m'.flat, tx.hash))
  {
    ExecLogs(env, index, m, tx, tx.hash);
  }

  /** The receipt is filed with all its logs: refreshing them on a query changes nothing at first. */
  lemma ReceiptComplete(env: Env, index: nat, m: Machine, tx: Tx)
    ensures var (res, m') := Exec(env, index, m, tx);
            res != Rejected ==> tx.hash in m'.flat.receipts &&
                                ReceiptOf(m'.flat, tx.hash) == Some(m'.flat.receipts[tx.hash])
  {
    hide Raw, Emitted, Prepared, Run;
    var p := Prepared(m, tx);
    assert p.flat.cur == tx.hash by {
      MessageMeets(env, m, tx, Balance(tx.from), tx.from);
    }
    RunAppends(env.apply(tx), env.root, p);
    var (out, m1) := Run(env.apply(tx), env.root, p);
    assert LogsAt(LogFlat(m1.flat, TraceLog(out.trace)).logs, tx.hash) ==
           LogsAt(m1.flat.logs, tx.hash) + [TraceLog(out.trace)];
  }

  lemma OtherReceiptKept(env: Env, index: nat, m: Machine, tx: Tx, h: TxHash)
    requires h != tx.hash
    ensures ReceiptOf(Exec(env, index, m, tx).1.flat, h) == ReceiptOf(m.flat, h)
  {
    hide Exec, Emitted, OutcomeOf, Prepared;
    ExecLogs(env, index, m, tx, h);
    assert LogsAt(Exec(env, index, m, tx).1.flat.logs, h) == LogsAt(m.flat.logs, h) + [] == LogsAt(m.flat.logs, h);
  }

  /** With no hash repeated, result i and what is read back of receipt i at the end of the list still tell
      how the run of transaction i ended. */
  lemma {:induction false} ListTells(env: Env, indexed: bool, txs: seq<Tx>, m: Machine, i: nat)
    requires DistinctHashes(txs) && i < |txs|
    ensures var at := ExecAll(env, indexed, txs[..i], m).1;
            var (results, last) := ExecAll(env, indexed, txs, m);
            Tells(OutcomeOf(env, at, txs[i]), txs[i], if indexed then i else 0, results[i],
                  ReceiptOf(last.flat, txs[i].hash))
    decreases |txs|
  {
    hide Exec, ExecAll, Tells, Emitted, OutcomeOf;
    var n := |txs| - 1;
    var m1 := ExecAll(env, indexed, txs[..n], m).1;
    ExecAllSnoc(env, indexed, txs, n, m);
    assert txs[..n + 1] == txs;
    if i == n {
      ResultTells(env, if indexed then n else 0, m1, txs[n]);
    } else {
      ListTells(env, indexed, txs[..n], m, i);
      assert txs[..n][..i] == txs[..i];
      OtherReceiptKept(env, if indexed then n else 0, m1, txs[n], txs[i].hash);
    }
  }

  /** traceBlocks: the trace of a transaction is the data of the last log of its receipt. */
  function ReadTrace(f: Flat, txHash: TxHash): Option<Bytes> {
    var r := ReceiptOf(f, txHash);
    if r.Some? && |r.value.logs| > 0 then Some(r.value.logs[|r.value.logs| - 1].data) else None
  }

  ghost predicate DistinctHashes(txs: seq<Tx>) {
    forall i, j :: 0 <= i < j < |txs| ==> txs[i].hash != txs[j].hash
  }

  /** The state has neither logs nor a receipt under any of these hashes. */
  ghost predicate Unseen(f: Flat, txs: seq<Tx>) {
    forall i :: 0 <= i < |txs| ==> LogsAt(f.logs, txs[i].hash) == [] && txs[i].hash !in f.receipts
  }

  /** The logs under the hash of a transaction executed at state `at` are exactly the unreverted
      logs emitted while it was current, in order, and then its trace; the trace read back from its
      receipt is its own. A rejected transaction has neither. */
  ghost predicate OwnTrace(env: Env, tx: Tx, at: Machine, res: ExecResult, f: Flat) {
    var trace := OutcomeOf(env, at, tx).trace;
    if res.Rejected? then LogsAt(f.logs, tx.hash) == [] && ReadTrace(f, tx.hash) == None
    else
      && LogsAt(f.logs, tx.hash) == Emitted(env.apply(tx), env.root, Prepared(at, tx)) + [TraceLog(trace)]
      && ReadTrace(f, tx.hash) == Some(trace)
  }

  lemma OwnTraceNew(env: Env, index: nat, m: Machine, tx: Tx)
    requires LogsAt(m.flat.logs, tx.hash) == [] && tx.hash !in m.flat.receipts
    ensures var (res, m') := Exec(env, index, m, tx); OwnTrace(env, tx, m, res, m'.flat)
  {
    ExecLogs(env, index, m, tx, tx.hash);
  }

  lemma OwnTraceKept(env: Env, tx: Tx, at: Machine, res: ExecResult, index: nat, m: Machine, other: Tx)
    requires OwnTrace(env, tx, at, res, m.flat) && other.hash != tx.hash
    ensures OwnTrace(env, tx, at, res, Exec(env, index, m, other).1.flat)
  {
    ExecLogs(env, index, m, other, tx.hash);
  }

  /** traceBlocks relies on this: after a list of pairwise distinct transactions, run from a state
      that had not seen them, every transaction still has its own trace. */
  lemma {:induction false} TracePosition(env: Env, txs: seq<Tx>, m: Machine, i: nat)
    requires DistinctHashes(txs) && Unseen(m.flat, txs) && i < |txs|
    ensures var (results, last) := ExecAll(env, true, txs, m);
            OwnTrace(env, txs[i], Before(env, txs, i, m), results[i], last.flat)
    decreases |txs|
  {
    hide Exec, ExecAll, OwnTrace, Emitted, OutcomeOf;
    var n := |txs| - 1;
    var m1 := ExecAll(env, true, txs[..n], m).1;
    ExecAllSnoc(env, true, txs, n, m);
    assert txs[..n + 1] == txs;
    if i == n {
      StaysUnseen(env, txs[..n], m, txs[n].hash);
      OwnTraceNew(env, n, m1, txs[n]);
    } else {
      TracePosition(env, txs[..n], m, i);
      assert txs[..n][..i] == txs[..i];
      OwnTraceKept(env, txs[i], Before(env, txs, i, m), ExecAll(env, true, txs[..n], m).0[i], n, m1, txs[n]);
    }
  }

  lemma {:induction false} StaysUnseen(env: Env, txs: seq<Tx>, m: Machine, h: TxHash)
    requires forall i :: 0 <= i < |txs| ==> txs[i].hash != h
    ensures var f := ExecAll(env, true, txs, m).1.flat;
            && LogsAt(f.logs, h) == LogsAt(m.flat.logs, h)
            && (h in f.receipts <==> h in m.flat.receipts)
    decreases |txs|
  {
    if txs != [] {
      var n := |txs| - 1;
      StaysUnseen(env, txs[..n], m, h);
      ExecLogs(env, n, ExecAll(env, true, txs[..n], m).1, txs[n], h);
    }
  }

  // ----- Equality up to receipt numbers -----

  /** Equal in everything but the transaction indexes written in the receipts. */
  ghost predicate Alike(m: Machine, n: Machine) {
    && NoReceipts(m) == NoReceipts(n)
    && m.flat.receipts.Keys == n.flat.receipts.Keys
    && forall h :: h in m.flat.receipts ==>
         m.flat.receipts[h] == n.flat.receipts[h].(txIndex := m.flat.receipts[h].txIndex)
  }

  lemma ExecAlike(env: Env, i: nat, j: nat, m: Machine, n: Machine, tx: Tx)
    requires Alike(m, n)
    ensures Exec(env, i, m, tx).0 == Exec(env, j, n, tx).0
    ensures Alike(Exec(env, i, m, tx).1, Exec(env, j, n, tx).1)
  {
    RunBlindToReceipts(env.apply(tx), env.root, Prepared(m, tx), Prepared(n, tx));
    RunAppends(env.apply(tx), env.root, Prepared(m, tx));
    RunAppends(env.apply(tx), env.root, Prepared(n, tx));
  }

  lemma {:induction false} ExecAllAlike(env: Env, a: bool, b: bool, txs: seq<Tx>, m: Machine, n: Machine)
    requires Alike(m, n)
    ensures ExecAll(env, a, txs, m).0 == ExecAll(env, b, txs, n).0
    ensures Alike(ExecAll(env, a, txs, m).1, ExecAll(env, b, txs, n).1)
    decreases |txs|
  {
    if txs != [] {
      var k := |txs| - 1;
      ExecAllAlike(env, a, b, txs[..k], m, n);
      ExecAlike(env, if a then k else 0, if b then k else 0,
        ExecAll(env, a, txs[..k], m).1, ExecAll(env, b, txs[..k], n).1, txs[k]);
    }
  }

  // ----- The freshly derived and funded state -----

  function AddBalanceFlat(root: Root, f: Flat, account: Address, delta: nat): Flat {
    PutFlat(f, Raw(Balance(account)), BigEndian(ToNat(Read(root, f, Balance(account))) + delta))
  }

  /** InitFakeAccounts, one account after the other. */
  function Funded(root: Root, fakes: seq<(Address, nat)>, f: Flat): Flat {
    if fakes == [] then f
    else
      var n := |fakes| - 1;
      AddBalanceFlat(root, Funded(root, fakes[..n], f), fakes[n].0, fakes[n].1)
  }

  /** The machine after ResetToRoot or Prepare: a funded empty layer over the root and a full gas
      pool. The refund counter is not reset. */
  function Fresh(env: Env, refund: nat): Machine {
    Machine(Funded(env.root, env.fakes, BLANK), refund, env.gasLimit)
  }

  /** What an account is granted in all. */
  function Granted(fakes: seq<(Address, nat)>, a: Address): nat {
    if fakes == [] then 0
    else Granted(fakes[..|fakes| - 1], a) + if fakes[|fakes| - 1].0 == a then fakes[|fakes| - 1].1 else 0
  }

  function FakeAccounts(fakes: seq<(Address, nat)>): set<Address> {
    set i | 0 <= i < |fakes| :: fakes[i].0
  }

  /** Over a blank state only the balances of those funded so far are held. */
  lemma OneMoreFake(root: Root, fakes: seq<(Address, nat)>, i: nat)
    requires i < |fakes|
    ensures FakeAccounts(fakes[..i + 1]) == FakeAccounts(fakes[..i]) + {fakes[i].0}
    ensures Raw(Balance(fakes[i].0)) in Funded(root, fakes[..i], BLANK).view ==> fakes[i].0 in FakeAccounts(fakes[..i])
  {
    hide Raw, Funded;
    HeldBalances(root, fakes[..i], fakes[i].0);
    forall a ensures a in FakeAccounts(fakes[..i + 1]) <==> a in FakeAccounts(fakes[..i]) || a == fakes[i].0 {
      if a in FakeAccounts(fakes[..i]) {
        var j :| 0 <= j < i && fakes[..i][j].0 == a;
        assert fakes[..i + 1][j].0 == a;
      }
      assert fakes[..i + 1][i] == fakes[i];
    }
  }

  lemma {:induction false} HeldBalances(root: Root, fakes: seq<(Address, nat)>, a: Address)
    ensures Raw(Balance(a)) in Funded(root, fakes, BLANK).view ==> a in FakeAccounts(fakes)
  {
    hide Raw, BigEndian, ToNat;
    if fakes != [] {
      var n := |fakes| - 1;
      HeldBalances(root, fakes[..n], a);
      RawInjective(Balance(a), Balance(fakes[n].0));
      assert FakeAccounts(fakes[..n]) <= FakeAccounts(fakes);
    }
  }

  ghost predicate DistinctFakes(fakes: seq<(Address, nat)>) {
    forall i, j :: 0 <= i < j < |fakes| ==> fakes[i].0 != fakes[j].0
  }

  lemma {:induction false} GrantedOnce(fakes: seq<(Address, nat)>, a: Address)
    ensures (forall i :: 0 <= i < |fakes| ==> fakes[i].0 != a) ==> Granted(fakes, a) == 0
    ensures DistinctFakes(fakes) ==> forall i :: 0 <= i < |fakes| && fakes[i].0 == a ==> Granted(fakes, a) == fakes[i].1
  {
    if fakes != [] {
      GrantedOnce(fakes[..|fakes| - 1], a);
    }
  }

  /** The state after a reset, read by read: every balance is the root's and what the account is granted,
      every other key reads as at the root, and no message has left anything. */
  ghost predicate JustReset(root: Root, fakes: seq<(Address, nat)>, f: Flat) {
    && (forall a: Address ::
          ToNat(Read(root, f, Balance(a))) == ToNat(root(Balance(a))) + Granted(fakes, a))
    && (DistinctFakes(fakes) ==> forall i :: 0 <= i < |fakes| ==>
          ToNat(Read(root, f, Balance(fakes[i].0))) == ToNat(root(Balance(fakes[i].0))) + fakes[i].1)
    && (forall k: ReadKey :: !k.Balance? || (forall i :: 0 <= i < |fakes| ==> fakes[i].0 != k.account) ==>
          Read(root, f, k) == root(k))
    && (forall h: TxHash :: LogsAt(f.logs, h) == [] && ReceiptOf(f, h) == None)
    && (forall a: Address :: !Suicided(f.top, a))
  }

  lemma {:induction false} FundedReads(root: Root, fakes: seq<(Address, nat)>, f: Flat, k: Key)
    ensures var g := Funded(root, fakes, f);
            && g == f.(view := g.view, top := g.top)
            && (k.Balance? ==> ToNat(Read(root, g, k)) == ToNat(Read(root, f, k)) + Granted(fakes, k.account))
            && (!k.Suicide? && (!k.Balance? || forall i :: 0 <= i < |fakes| ==> fakes[i].0 != k.account) ==>
                  Read(root, g, k) == Read(root, f, k))
            && (!k.Balance? ==> Raw(k) in g.top ==> Raw(k) in f.top && g.top[Raw(k)] == f.top[Raw(k)])
  {
    hide Raw, ToNat, BigEndian;
    if fakes != [] {
      var n := |fakes| - 1;
      FundedReads(root, fakes[..n], f, k);
      RawInjective(k, Balance(fakes[n].0));
      var g := Funded(root, fakes[..n], f);
      BigEndianRoundTrip(ToNat(Read(root, g, Balance(fakes[n].0))) + fakes[n].1);
    }
  }

  lemma FreshIsReset(env: Env, refund: nat)
    ensures JustReset(env.root, env.fakes, Fresh(env, refund).flat)
  {
    hide Raw, ToNat, BigEndian, Funded, Granted, DistinctFakes;
    var f := Fresh(env, refund).flat;
    forall a: Address
      ensures ToNat(Read(env.root, f, Balance(a))) == ToNat(env.root(Balance(a))) + Granted(env.fakes, a)
      ensures !Suicided(f.top, a)
    {
      FundedReads(env.root, env.fakes, BLANK, Balance(a));
      FundedReads(env.root, env.fakes, BLANK, Suicide(a));
    }
    forall i | 0 <= i < |env.fakes| && DistinctFakes(env.fakes)
      ensures Granted(env.fakes, env.fakes[i].0) == env.fakes[i].1
    {
      GrantedOnce(env.fakes, env.fakes[i].0);
    }
    forall k: ReadKey | !k.Balance? || (forall i :: 0 <= i < |env.fakes| ==> env.fakes[i].0 != k.account)
      ensures Read(env.root, f, k) == env.root(k)
    {
      FundedReads(env.root, env.fakes, BLANK, k);
    }
    FundedReads(env.root, env.fakes, BLANK, Suicide(Zeros(20)));
  }
}
