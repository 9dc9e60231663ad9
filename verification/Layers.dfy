/** Layered copy-on-write state on values (mferstate/overlaystate.go, overlaystatedb.go) and its
    specification: one flat map plus a stack of full saved copies. */
module Layers {
  import opened Words
  import opened Keys
  import opened Upstream

  datatype Log = Log(address: Address, topics: seq<Hash>, data: Bytes)

  datatype Receipt = Receipt(
    txHash: TxHash, success: bool, gasUsed: nat, txIndex: nat, logs: seq<Log>)

  /** A transaction hash is only ever compared for equality. */
  type TxHash = int

  type Pad = map<Bytes, Bytes>
  type TxLogs = map<TxHash, seq<Log>>
  type Receipts = map<TxHash, Receipt>

  /** The mutable part of one OverlayState above the root. */
  datatype Layer = Layer(pad: Pad, logs: TxLogs, receipts: Receipts, cur: TxHash)

  /** What a reader sees. `top` is the current layer's own pad, the only one HasSuicided consults. */
  datatype Flat = Flat(view: Pad, top: Pad, logs: TxLogs, receipts: Receipts, cur: TxHash)

  function LogsAt(logs: TxLogs, txHash: TxHash): seq<Log> {
    if txHash in logs then logs[txHash] else []
  }

  function JoinLogs(below: TxLogs, above: TxLogs): TxLogs {
    map h | h in below.Keys + above.Keys :: LogsAt(below, h) + LogsAt(above, h)
  }

  lemma JoinNothing(below: TxLogs)
    ensures JoinLogs(below, map[]) == below
  {
    forall h | h in below ensures JoinLogs(below, map[])[h] == below[h] {
      assert below[h] + [] == below[h];
    }
  }

  lemma JoinAppend(below: TxLogs, above: TxLogs, c: TxHash, log: Log)
    ensures var joined := JoinLogs(below, above);
            JoinLogs(below, above[c := LogsAt(above, c) + [log]]) == joined[c := LogsAt(joined, c) + [log]]
  {
    assert LogsAt(below, c) + (LogsAt(above, c) + [log]) == LogsAt(JoinLogs(below, above), c) + [log];
  }

  function Over(f: Flat, l: Layer): Flat {
    Flat(f.view + l.pad, l.pad, JoinLogs(f.logs, l.logs), f.receipts + l.receipts, l.cur)
  }

  const NO_TX: TxHash := 0

  const BLANK := Flat(map[], map[], map[], map[], NO_TX)

  /** The layers above the root, bottom first, collapsed into one flat state. */
  function Flatten(ls: seq<Layer>): Flat {
    if ls == [] then BLANK else Over(Flatten(ls[..|ls| - 1]), ls[|ls| - 1])
  }

  // ----- Operations on the specification -----

  function PutFlat(f: Flat, key: Bytes, val: Bytes): Flat {
    f.(view := f.view[key := val], top := f.top[key := val])
  }

  function LogFlat(f: Flat, log: Log): Flat {
    f.(logs := f.logs[f.cur := LogsAt(f.logs, f.cur) + [log]])
  }

  function ReceiptFlat(f: Flat, txHash: TxHash, r: Receipt): Flat {
    f.(receipts := f.receipts[txHash := r])
  }

  function StartFlat(f: Flat, txHash: TxHash): Flat {
    f.(cur := txHash)
  }

  function SnapFlat(f: Flat): Flat {
    f.(top := map[])
  }

  function Read(root: Root, f: Flat, k: ReadKey): Bytes {
    if Raw(k) in f.view then f.view[Raw(k)] else root(k)
  }

  /** GetReceipt refreshes the stored receipt's logs on every query. */
  function ReceiptOf(f: Flat, txHash: TxHash): Option<Receipt> {
    if txHash in f.receipts then Some(f.receipts[txHash].(logs := LogsAt(f.logs, txHash))) else None
  }

  predicate Suicided(top: Pad, account: Address) {
    Raw(Suicide(account)) in top && top[Raw(Suicide(account))] == [1]
  }

  /** Marking an account makes the answer about it true, changes it about no other account, and shows in
      no read. */
  lemma SuicideMarks(root: Root, f: Flat, account: Address)
    ensures var g := PutFlat(f, Raw(Suicide(account)), [1]);
            && (forall a: Address :: Suicided(g.top, a) <==> a == account || Suicided(f.top, a))
            && (forall k: ReadKey :: Read(root, g, k) == Read(root, f, k))
  {
    hide Raw;
    var g := PutFlat(f, Raw(Suicide(account)), [1]);
    forall a: Address ensures Suicided(g.top, a) <==> a == account || Suicided(f.top, a) {
      RawInjective(Suicide(a), Suicide(account));
    }
    forall k: ReadKey ensures Read(root, g, k) == Read(root, f, k) {
      RawInjective(k, Suicide(account));
    }
  }

  // ----- Operations on one layer -----

  function Derived(cur: TxHash): Layer {
    Layer(map[], map[], map[], cur)
  }

  function PutLayer(l: Layer, key: Bytes, val: Bytes): Layer {
    l.(pad := l.pad[key := val])
  }

  function LogLayer(l: Layer, log: Log): Layer {
    l.(logs := l.logs[l.cur := LogsAt(l.logs, l.cur) + [log]])
  }

  function ReceiptLayer(l: Layer, txHash: TxHash, r: Receipt): Layer {
    l.(receipts := l.receipts[txHash := r])
  }

  function Top(ls: seq<Layer>): Layer
    requires ls != []
  {
    ls[|ls| - 1]
  }

  function OnTop(ls: seq<Layer>, l: Layer): seq<Layer>
    requires ls != []
  {
    ls[|ls| - 1 := l]
  }

  function Pushed(ls: seq<Layer>): seq<Layer>
    requires ls != []
  {
    ls + [Derived(Top(ls).cur)]
  }

  /** Walking the parents: the nearest layer that holds the key answers. */
  function Walk(root: Root, ls: seq<Layer>, k: ReadKey): Bytes {
    if ls == [] then root(k)
    else if Raw(k) in Top(ls).pad then Top(ls).pad[Raw(k)]
    else Walk(root, ls[..|ls| - 1], k)
  }

  function WalkLogs(ls: seq<Layer>, txHash: TxHash): seq<Log> {
    if ls == [] then [] else WalkLogs(ls[..|ls| - 1], txHash) + LogsAt(Top(ls).logs, txHash)
  }

  function WalkReceipt(ls: seq<Layer>, txHash: TxHash): Option<Receipt> {
    if ls == [] then None
    else if txHash in Top(ls).receipts then Some(Top(ls).receipts[txHash])
    else WalkReceipt(ls[..|ls| - 1], txHash)
  }

  lemma {:induction false} WalkIsRead(root: Root, ls: seq<Layer>, k: ReadKey)
    ensures Walk(root, ls, k) == Read(root, Flatten(ls), k)
  {
    if ls != [] {
      WalkIsRead(root, ls[..|ls| - 1], k);
    }
  }

  lemma {:induction false} WalkLogsIsFlat(ls: seq<Layer>, txHash: TxHash)
    ensures WalkLogs(ls, txHash) == LogsAt(Flatten(ls).logs, txHash)
  {
    if ls != [] {
      WalkLogsIsFlat(ls[..|ls| - 1], txHash);
    }
  }

  lemma {:induction false} WalkReceiptIsFlat(ls: seq<Layer>, txHash: TxHash)
    ensures var f := Flatten(ls);
            WalkReceipt(ls, txHash) == if txHash in f.receipts then Some(f.receipts[txHash]) else None
  {
    if ls != [] {
      WalkReceiptIsFlat(ls[..|ls| - 1], txHash);
    }
  }

  lemma {:induction false} ViewHolds(ls: seq<Layer>, i: nat, x: Bytes)
    requires i < |ls| && x in ls[i].pad
    ensures x in Flatten(ls).view
  {
    if i < |ls| - 1 {
      ViewHolds(ls[..|ls| - 1], i, x);
    }
  }

  lemma FlattenOnTop(ls: seq<Layer>, l: Layer)
    requires ls != []
    ensures Flatten(OnTop(ls, l)) == Over(Flatten(ls[..|ls| - 1]), l)
    ensures OnTop(ls, l)[..|ls| - 1] == ls[..|ls| - 1]
  {
    assert OnTop(ls, l)[..|ls| - 1] == ls[..|ls| - 1];
  }

  lemma OverrideUpdate<K, V>(a: map<K, V>, b: map<K, V>, k: K, v: V)
    ensures a + b[k := v] == (a + b)[k := v]
  {
  }

  lemma TopOfFlat(ls: seq<Layer>)
    requires ls != []
    ensures Flatten(ls).top == Top(ls).pad && Flatten(ls).cur == Top(ls).cur
  {
  }

  lemma FlattenPut(ls: seq<Layer>, key: Bytes, val: Bytes)
    requires ls != []
    ensures Flatten(OnTop(ls, PutLayer(Top(ls), key, val))) == PutFlat(Flatten(ls), key, val)
  {
    FlattenOnTop(ls, PutLayer(Top(ls), key, val));
    OverrideUpdate(Flatten(ls[..|ls| - 1]).view, Top(ls).pad, key, val);
  }

  lemma FlattenLog(ls: seq<Layer>, log: Log)
    requires ls != []
    ensures Flatten(OnTop(ls, LogLayer(Top(ls), log))) == LogFlat(Flatten(ls), log)
  {
    var l' := LogLayer(Top(ls), log);
    FlattenOnTop(ls, l');
    JoinAppend(Flatten(ls[..|ls| - 1]).logs, Top(ls).logs, Top(ls).cur, log);
  }

  lemma FlattenReceipt(ls: seq<Layer>, txHash: TxHash, r: Receipt)
    requires ls != []
    ensures Flatten(OnTop(ls, ReceiptLayer(Top(ls), txHash, r))) == ReceiptFlat(Flatten(ls), txHash, r)
  {
    FlattenOnTop(ls, ReceiptLayer(Top(ls), txHash, r));
    OverrideUpdate(Flatten(ls[..|ls| - 1]).receipts, Top(ls).receipts, txHash, r);
  }

  lemma FlattenStart(ls: seq<Layer>, txHash: TxHash)
    requires ls != []
    ensures Flatten(OnTop(ls, Top(ls).(cur := txHash))) == StartFlat(Flatten(ls), txHash)
  {
    FlattenOnTop(ls, Top(ls).(cur := txHash));
  }

  lemma FlattenPushed(ls: seq<Layer>)
    requires ls != []
    ensures Flatten(Pushed(ls)) == SnapFlat(Flatten(ls))
  {
    assert Pushed(ls)[..|ls|] == ls;
    JoinNothing(Flatten(ls).logs);
  }

  // ----- Runs of operations with snapshots and reverts -----

  datatype Op =
    | Put(key: Bytes, val: Bytes)
    | AddLog(log: Log)
    | AddReceipt(txHash: TxHash, receipt: Receipt)
    | StartLogs(tx: TxHash)
    | Snapshot
    | Revert(revision: nat)

  /** The specification machine: the current flat state and one full copy per live revision. */
  datatype Saved = Saved(now: Flat, copies: seq<Flat>)

  /** The revisions live in a database created at depth `base`: the depths above it. */
  predicate Live(revision: nat, base: nat, depth: nat) {
    base < revision <= depth
  }

  predicate Legal(op: Op, base: nat, depth: nat) {
    op.Revert? ==> Live(op.revision, base, depth)
  }

  /** What OverlayStateDB does: a revision number is the depth of the layer the snapshot pushed. */
  function StepLayers(ls: seq<Layer>, base: nat, op: Op): (r: seq<Layer>)
    requires 1 <= base <= |ls| && Legal(op, base, |ls|)
    ensures base <= |r|
  {
    match op
    case Put(key, val) => OnTop(ls, PutLayer(Top(ls), key, val))
    case AddLog(log) => OnTop(ls, LogLayer(Top(ls), log))
    case AddReceipt(h, r) => OnTop(ls, ReceiptLayer(Top(ls), h, r))
    case StartLogs(h) => OnTop(ls, Top(ls).(cur := h))
    case Snapshot => Pushed(ls)
    case Revert(id) => ls[..id - 1]
  }

  /** What it is meant to do: save a full copy, or restore one and forget the later ones. */
  function StepSaved(s: Saved, base: nat, op: Op): Saved
    requires Legal(op, base, base + |s.copies|)
  {
    match op
    case Put(key, val) => s.(now := PutFlat(s.now, key, val))
    case AddLog(log) => s.(now := LogFlat(s.now, log))
    case AddReceipt(h, r) => s.(now := ReceiptFlat(s.now, h, r))
    case StartLogs(h) => s.(now := StartFlat(s.now, h))
    case Snapshot => Saved(SnapFlat(s.now), s.copies + [s.now])
    case Revert(id) => Saved(s.copies[id - 1 - base], s.copies[..id - 1 - base])
  }

  ghost predicate Refines(ls: seq<Layer>, base: nat, s: Saved) {
    && 1 <= base <= |ls|
    && |s.copies| == |ls| - base
    && s.now == Flatten(ls)
    && forall i :: 0 <= i < |s.copies| ==> s.copies[i] == Flatten(ls[..base + i])
  }

  /** A run in which every revert names a revision that is live when it happens. */
  predicate LegalRun(ls: seq<Layer>, base: nat, ops: seq<Op>)
    requires 1 <= base <= |ls|
    decreases |ops|
  {
    ops == [] || (Legal(ops[0], base, |ls|) && LegalRun(StepLayers(ls, base, ops[0]), base, ops[1..]))
  }

  function RunLayers(ls: seq<Layer>, base: nat, ops: seq<Op>): seq<Layer>
    requires 1 <= base <= |ls| && LegalRun(ls, base, ops)
    decreases |ops|
  {
    if ops == [] then ls else RunLayers(StepLayers(ls, base, ops[0]), base, ops[1..])
  }

  /** The same run on the specification; None if it names a revision the specification lacks. */
  function RunSaved(s: Saved, base: nat, ops: seq<Op>): Option<Saved>
    decreases |ops|
  {
    if ops == [] then Some(s)
    else if !Legal(ops[0], base, base + |s.copies|) then None
    else RunSaved(StepSaved(s, base, ops[0]), base, ops[1..])
  }

  /** Every operation but a revert does to the flattened layers what it does to the flat state. */
  lemma NowStep(ls: seq<Layer>, base: nat, s: Saved, op: Op)
    requires 1 <= base <= |ls| && s.now == Flatten(ls) && !op.Revert?
    ensures Flatten(StepLayers(ls, base, op)) == StepSaved(s, base, op).now
  {
    hide Flatten, Raw, JoinLogs;
    match op
    case Put(key, val) => FlattenPut(ls, key, val);
    case AddLog(log) => FlattenLog(ls, log);
    case AddReceipt(h, r) => FlattenReceipt(ls, h, r);
    case StartLogs(h) => FlattenStart(ls, h);
    case Snapshot => FlattenPushed(ls);
  }

  lemma StepKeepsBelow(ls: seq<Layer>, base: nat, op: Op, n: nat)
    requires 1 <= base <= |ls| && Legal(op, base, |ls|)
    requires n < |ls| && (op.Revert? ==> n < op.revision)
    ensures |StepLayers(ls, base, op)| >= n && StepLayers(ls, base, op)[..n] == ls[..n]
  {
  }

  lemma RefinesStep(ls: seq<Layer>, base: nat, s: Saved, op: Op)
    requires Refines(ls, base, s) && Legal(op, base, |ls|)
    ensures Refines(StepLayers(ls, base, op), base, StepSaved(s, base, op))
  {
    hide Flatten;
    var ls', s' := StepLayers(ls, base, op), StepSaved(s, base, op);
    if !op.Revert? {
      NowStep(ls, base, s, op);
    }
    forall i | 0 <= i < |s'.copies| ensures s'.copies[i] == Flatten(ls'[..base + i]) {
      if base + i < |ls| {
        StepKeepsBelow(ls, base, op, base + i);
      } else {
        assert ls'[..base + i] == ls;
      }
    }
  }

  lemma {:induction false} RefinesRun(ls: seq<Layer>, base: nat, s: Saved, ops: seq<Op>)
    requires Refines(ls, base, s) && LegalRun(ls, base, ops)
    ensures RunSaved(s, base, ops).Some?
    ensures Refines(RunLayers(ls, base, ops), base, RunSaved(s, base, ops).value)
    decreases |ops|
  {
    if ops != [] {
      RefinesStep(ls, base, s, ops[0]);
      RefinesRun(StepLayers(ls, base, ops[0]), base, StepSaved(s, base, ops[0]), ops[1..]);
    }
  }

  /** Snapshot refinement: after any run whose reverts name live revisions, the chain of layers
      answers every query as the flat state with saved full copies does. */
  lemma SnapshotRefinement(root: Root, start: seq<Layer>, ops: seq<Op>, k: ReadKey, h: TxHash, a: Address)
    requires start != [] && LegalRun(start, |start|, ops)
    ensures var spec := RunSaved(Saved(Flatten(start), []), |start|, ops);
            var ls := RunLayers(start, |start|, ops);
            && spec.Some? && ls != []
            && Walk(root, ls, k) == Read(root, spec.value.now, k)
            && WalkLogs(ls, h) == LogsAt(spec.value.now.logs, h)
            && WalkReceipt(ls, h).Some? == ReceiptOf(spec.value.now, h).Some?
            && (WalkReceipt(ls, h).Some? ==>
                  WalkReceipt(ls, h).value.(logs := WalkLogs(ls, h)) == ReceiptOf(spec.value.now, h).value)
            && Suicided(Top(ls).pad, a) == Suicided(spec.value.now.top, a)
            && Top(ls).cur == spec.value.now.cur
  {
    RefinesRun(start, |start|, Saved(Flatten(start), []), ops);
    var ls := RunLayers(start, |start|, ops);
    WalkIsRead(root, ls, k);
    WalkLogsIsFlat(ls, h);
    WalkReceiptIsFlat(ls, h);
  }

  /** A revert to a snapshot undoes everything after it, however many snapshots and reverts to
      later revisions lie between, and although the numbers of those are reused. */
  lemma {:induction false} RevertRestores(ls: seq<Layer>, base: nat, ops: seq<Op>)
    requires 1 <= base <= |ls|
    requires LegalRun(Pushed(ls), |ls| + 1, ops)
    ensures var ls' := RunLayers(Pushed(ls), |ls| + 1, ops);
            Live(|ls| + 1, base, |ls'|) && StepLayers(ls', base, Revert(|ls| + 1)) == ls
  {
    KeepsBelow(Pushed(ls), |ls| + 1, ops);
  }

  /** A run never touches the layers below the one it started on. */
  lemma {:induction false} KeepsBelow(ls: seq<Layer>, base: nat, ops: seq<Op>)
    requires 1 <= base <= |ls| && LegalRun(ls, base, ops)
    ensures |RunLayers(ls, base, ops)| >= base
    ensures RunLayers(ls, base, ops)[..base - 1] == ls[..base - 1]
    decreases |ops|
  {
    if ops != [] {
      KeepsBelow(StepLayers(ls, base, ops[0]), base, ops[1..]);
    }
  }

  // ----- MergeTo -----

  /** One round of the loop: the top pad is copied into its parent, which becomes the top. Logs,
      receipts and the current transaction of the merged layer are dropped. */
  function MergeOne(ls: seq<Layer>): seq<Layer>
    requires |ls| >= 2
  {
    var under := ls[|ls| - 2];
    ls[..|ls| - 2] + [under.(pad := under.pad + Top(ls).pad)]
  }

  function MergeTo(ls: seq<Layer>, revision: nat): (r: seq<Layer>)
    requires 1 <= revision <= |ls|
    ensures |r| == revision
    decreases |ls|
  {
    if |ls| == revision then ls else MergeTo(MergeOne(ls), revision)
  }

  lemma FlattenNothing(ls: seq<Layer>)
    requires ls == []
    ensures Flatten(ls) == BLANK
  {
  }

  lemma FlattenSnoc(ls: seq<Layer>, l: Layer)
    ensures Flatten(ls + [l]) == Over(Flatten(ls), l)
  {
    assert (ls + [l])[..|ls|] == ls;
  }

  lemma PadAssociative(a: Pad, b: Pad, c: Pad)
    ensures (a + b) + c == a + (b + c)
  {
  }

  lemma MergeOneView(ls: seq<Layer>)
    requires |ls| >= 2
    ensures Flatten(MergeOne(ls)).view == Flatten(ls).view
  {
    hide Flatten, JoinLogs;
    var n := |ls|;
    var low, under, top := ls[..n - 2], ls[n - 2], ls[n - 1];
    assert ls == (low + [under]) + [top];
    FlattenSnoc(low + [under], top);
    FlattenSnoc(low, under);
    FlattenSnoc(low, under.(pad := under.pad + top.pad));
    PadAssociative(Flatten(low).view, under.pad, top.pad);
  }

  lemma MergeOneRest(ls: seq<Layer>)
    requires |ls| >= 2
    ensures var m, under := Flatten(MergeOne(ls)), Flatten(ls[..|ls| - 1]);
            m.logs == under.logs && m.receipts == under.receipts && m.cur == ls[|ls| - 2].cur
  {
    hide Flatten, JoinLogs;
    var n := |ls|;
    var low, under := ls[..n - 2], ls[n - 2];
    assert ls[..n - 1] == low + [under];
    FlattenSnoc(low, under);
    FlattenSnoc(low, under.(pad := under.pad + Top(ls).pad));
  }

  lemma {:induction false} MergeView(ls: seq<Layer>, revision: nat)
    requires 1 <= revision <= |ls|
    ensures Flatten(MergeTo(ls, revision)).view == Flatten(ls).view
    decreases |ls|
  {
    if |ls| != revision {
      MergeOneView(ls);
      MergeView(MergeOne(ls), revision);
    }
  }

  /** Merging drops the logs and receipts above the target: what remains is the target's own. */
  lemma {:induction false} MergeRest(ls: seq<Layer>, revision: nat)
    requires 1 <= revision <= |ls|
    ensures var m, under := Flatten(MergeTo(ls, revision)), Flatten(ls[..revision]);
            m.logs == under.logs && m.receipts == under.receipts && m.cur == ls[revision - 1].cur
    decreases |ls|
  {
    hide Flatten, JoinLogs;
    if |ls| == revision {
      assert ls[..revision] == ls;
      TopOfFlat(ls);
    } else {
      var m := MergeOne(ls);
      MergeRest(m, revision);
      if revision == |ls| - 1 {
        MergeOneRest(ls);
        assert m[..revision] == m;
      } else {
        assert m[..revision] == ls[..revision];
      }
    }
  }

  lemma {:induction false} MergeBelow(ls: seq<Layer>, revision: nat)
    requires 1 <= revision <= |ls|
    ensures MergeTo(ls, revision)[..revision - 1] == ls[..revision - 1]
    decreases |ls|
  {
    if |ls| != revision {
      MergeBelow(MergeOne(ls), revision);
    }
  }

  /** Merging keeps every scratch-pad read. */
  lemma MergeKeepsReads(root: Root, ls: seq<Layer>, revision: nat, k: ReadKey)
    requires 1 <= revision <= |ls|
    ensures Walk(root, MergeTo(ls, revision), k) == Walk(root, ls, k)
  {
    MergeView(ls, revision);
    WalkIsRead(root, MergeTo(ls, revision), k);
    WalkIsRead(root, ls, k);
  }

  /** A later revert to a revision at or below the target finds what it would have found
      without the merge. */
  lemma MergeKeepsReverts(ls: seq<Layer>, revision: nat, id: nat)
    requires 1 <= revision <= |ls| && Live(id, 1, revision)
    ensures StepLayers(MergeTo(ls, revision), 1, Revert(id)) == StepLayers(ls, 1, Revert(id))
  {
    MergeBelow(ls, revision);
    var m := MergeTo(ls, revision);
    assert m[..id - 1] == m[..revision - 1][..id - 1];
    assert ls[..id - 1] == ls[..revision - 1][..id - 1];
  }
}
