/** core.ApplyMessage as an arbitrary deterministic program over the state interface. A program is
    a decision tree: every answer of the state database selects the next branch, and a nested EVM
    call is a snapshot that is reverted unless the call ends well. A branch missing from a table
    ends the program as refused, which the total programs are a special case of. */
module Programs {
  import opened Words
  import opened Sequences
  import opened Keys
  import opened Upstream
  import opened Layers

  /** Refused is the error return of core.ApplyMessage; Failed is a reverted or faulting call. */
  datatype Status = Ok | Failed | Refused

  datatype Outcome = Outcome(status: Status, gasUsed: nat, trace: Bytes)

  datatype Prog =
    | Done(out: Outcome)
    | Load(key: ReadKey, onValue: imap<Bytes, Prog>)
    | Store(slot: Key, val: Bytes, next: Prog)
    | AskSuicided(account: Address, yes: Prog, no: Prog)
    | Emit(log: Log, next: Prog)
    | Refund(delta: int, next: Prog)
    | ReadRefund(onRefund: imap<nat, Prog>)
    | BuyGas(amount: nat, ok: Prog, short: Prog)
    | ReturnGas(amount: nat, next: Prog)
    | Call(body: Prog, onOutcome: imap<Outcome, Prog>)

  /** The flat state with the two counters that live outside the layers: the refund counter, which
      no revert restores, and the block's gas pool. */
  datatype Machine = Machine(flat: Flat, refund: nat, gas: nat)

  datatype Layered = Layered(layers: seq<Layer>, refund: nat, gas: nat)

  const STUCK := Outcome(Refused, 0, [])

  /** AddRefund and SubRefund are uint64 additions. */
  function Refunded(refund: nat, delta: int): nat {
    (refund + delta) % TWO_64
  }

  /** The meaning of a program on the flat state. */
  function Run(p: Prog, root: Root, m: Machine): (Outcome, Machine)
    decreases p
  {
    match p
    case Done(out) => (out, m)
    case Load(k, c) =>
      var v := Read(root, m.flat, k);
      if v in c then Run(c[v], root, m) else (STUCK, m)
    case Store(k, v, next) => Run(next, root, m.(flat := PutFlat(m.flat, Raw(k), v)))
    case AskSuicided(a, yes, no) => if Suicided(m.flat.top, a) then Run(yes, root, m) else Run(no, root, m)
    case Emit(log, next) => Run(next, root, m.(flat := LogFlat(m.flat, log)))
    case Refund(d, next) => Run(next, root, m.(refund := Refunded(m.refund, d)))
    case ReadRefund(c) => if m.refund in c then Run(c[m.refund], root, m) else (STUCK, m)
    case BuyGas(g, ok, short) => if g <= m.gas then Run(ok, root, m.(gas := m.gas - g)) else Run(short, root, m)
    case ReturnGas(g, next) => Run(next, root, m.(gas := m.gas + g))
    case Call(body, c) =>
      var (out, m1) := Run(body, root, m.(flat := SnapFlat(m.flat)));
      var m2 := if out.status.Ok? then m1 else m1.(flat := m.flat);
      if out in c then Run(c[out], root, m2) else (STUCK, m2)
  }

  /** The same program on the chain of layers: a call pushes a layer and a failing one pops back. */
  function RunLayered(p: Prog, root: Root, m: Layered): (r: (Outcome, Layered))
    requires m.layers != []
    ensures |r.1.layers| >= |m.layers|
    decreases p
  {
    var ls := m.layers;
    match p
    case Done(out) => (out, m)
    case Load(k, c) =>
      var v := Walk(root, ls, k);
      if v in c then RunLayered(c[v], root, m) else (STUCK, m)
    case Store(k, v, next) => RunLayered(next, root, m.(layers := OnTop(ls, PutLayer(Top(ls), Raw(k), v))))
    case AskSuicided(a, yes, no) =>
      if Suicided(Top(ls).pad, a) then RunLayered(yes, root, m) else RunLayered(no, root, m)
    case Emit(log, next) => RunLayered(next, root, m.(layers := OnTop(ls, LogLayer(Top(ls), log))))
    case Refund(d, next) => RunLayered(next, root, m.(refund := Refunded(m.refund, d)))
    case ReadRefund(c) => if m.refund in c then RunLayered(c[m.refund], root, m) else (STUCK, m)
    case BuyGas(g, ok, short) =>
      if g <= m.gas then RunLayered(ok, root, m.(gas := m.gas - g)) else RunLayered(short, root, m)
    case ReturnGas(g, next) => RunLayered(next, root, m.(gas := m.gas + g))
    case Call(body, c) =>
      var (out, m1) := RunLayered(body, root, m.(layers := Pushed(ls)));
      var m2 := if out.status.Ok? then m1 else m1.(layers := m1.layers[..|ls|]);
      if out in c then RunLayered(c[out], root, m2) else (STUCK, m2)
  }

  function Collapsed(m: Layered): Machine {
    Machine(Flatten(m.layers), m.refund, m.gas)
  }

  /** A program leaves every layer below the one it started on as it was. */
  lemma {:induction false} RunKeepsBelow(p: Prog, root: Root, m: Layered)
    requires m.layers != []
    ensures RunLayered(p, root, m).1.layers[..|m.layers| - 1] == m.layers[..|m.layers| - 1]
    decreases p
  {
    hide Raw, Walk, LogLayer;
    var ls := m.layers;
    match p
    case Done(_) =>
    case Load(k, c) =>
      var v := Walk(root, ls, k);
      if v in c { RunKeepsBelow(c[v], root, m); }
    case Store(k, v, next) => RunKeepsBelow(next, root, m.(layers := OnTop(ls, PutLayer(Top(ls), Raw(k), v))));
    case AskSuicided(a, yes, no) =>
      if Suicided(Top(ls).pad, a) { RunKeepsBelow(yes, root, m); } else { RunKeepsBelow(no, root, m); }
    case Emit(log, next) => RunKeepsBelow(next, root, m.(layers := OnTop(ls, LogLayer(Top(ls), log))));
    case Refund(d, next) => RunKeepsBelow(next, root, m.(refund := Refunded(m.refund, d)));
    case ReadRefund(c) => if m.refund in c { RunKeepsBelow(c[m.refund], root, m); }
    case BuyGas(g, ok, short) =>
      if g <= m.gas { RunKeepsBelow(ok, root, m.(gas := m.gas - g)); } else { RunKeepsBelow(short, root, m); }
    case ReturnGas(g, next) => RunKeepsBelow(next, root, m.(gas := m.gas + g));
    case Call(body, c) => RunKeepsBelowCall(body, c, root, m);
  }

  lemma {:induction false} RunKeepsBelowCall(body: Prog, c: imap<Outcome, Prog>, root: Root, m: Layered)
    requires m.layers != []
    ensures RunLayered(Call(body, c), root, m).1.layers[..|m.layers| - 1] == m.layers[..|m.layers| - 1]
    decreases Call(body, c), 0
  {
    LayeredCall(body, c, root, m);
    hide Pushed, RunLayered;
    var ls := m.layers;
    PushedOver(ls);
    RunKeepsBelow(body, root, m.(layers := Pushed(ls)));
    var (out, m1) := RunLayered(body, root, m.(layers := Pushed(ls)));
    ShorterPrefix(m1.layers, Pushed(ls), |ls|, |ls|);
    var m2 := if out.status.Ok? then m1 else m1.(layers := m1.layers[..|ls|]);
    assert m2.layers[..|ls|] == ls[..|ls|] == ls;
    if out in c {
      RunKeepsBelow(c[out], root, m2);
      var last := RunLayered(c[out], root, m2).1.layers;
      ShorterPrefix(last, m2.layers, |m2.layers| - 1, |ls| - 1);
    }
    ShorterPrefix(m2.layers, ls, |ls|, |ls| - 1);
  }

  /** A nested call, unfolded once. */
  lemma LayeredCall(body: Prog, c: imap<Outcome, Prog>, root: Root, m: Layered)
    requires m.layers != []
    ensures Pushed(m.layers) != [] &&
            var (out, m1) := RunLayered(body, root, m.(layers := Pushed(m.layers)));
            var m2 := if out.status.Ok? then m1 else m1.(layers := m1.layers[..|m.layers|]);
            m2.layers != [] &&
            RunLayered(Call(body, c), root, m) == if out in c then RunLayered(c[out], root, m2) else (STUCK, m2)
  {
    hide Raw, Walk, PutLayer, LogLayer, Suicided, Refunded;
  }

  lemma PushedOver(ls: seq<Layer>)
    requires ls != []
    ensures |Pushed(ls)| == |ls| + 1 && Pushed(ls)[..|ls|] == ls
  {
  }

  /** Running on the layers and running on the flat state give the same outcome, the same counters
      and states that answer alike. */
  lemma {:induction false} RunRefines(p: Prog, root: Root, m: Layered)
    requires m.layers != []
    ensures var (out, m') := RunLayered(p, root, m);
            Run(p, root, Collapsed(m)) == (out, Collapsed(m'))
    decreases p
  {
    hide Raw, Walk, Flatten, Suicided;
    var ls := m.layers;
    match p
    case Done(_) =>
    case Load(k, c) =>
      var v := Walk(root, ls, k);
      WalkIsRead(root, ls, k);
      if v in c { RunRefines(c[v], root, m); }
    case Store(k, v, next) =>
      FlattenPut(ls, Raw(k), v);
      RunRefines(next, root, m.(layers := OnTop(ls, PutLayer(Top(ls), Raw(k), v))));
    case AskSuicided(a, yes, no) =>
      TopOfFlat(ls);
      if Suicided(Top(ls).pad, a) { RunRefines(yes, root, m); } else { RunRefines(no, root, m); }
    case Emit(log, next) =>
      FlattenLog(ls, log);
      RunRefines(next, root, m.(layers := OnTop(ls, LogLayer(Top(ls), log))));
    case Refund(d, next) => RunRefines(next, root, m.(refund := Refunded(m.refund, d)));
    case ReadRefund(c) => if m.refund in c { RunRefines(c[m.refund], root, m); }
    case BuyGas(g, ok, short) =>
      if g <= m.gas { RunRefines(ok, root, m.(gas := m.gas - g)); } else { RunRefines(short, root, m); }
    case ReturnGas(g, next) => RunRefines(next, root, m.(gas := m.gas + g));
    case Call(body, c) =>
      FlattenPushed(ls);
      RunRefines(body, root, m.(layers := Pushed(ls)));
      var (out, m1) := RunLayered(body, root, m.(layers := Pushed(ls)));
      CallReverts(body, root, m);
      var m2 := if out.status.Ok? then m1 else m1.(layers := m1.layers[..|ls|]);
      if out in c { RunRefines(c[out], root, m2); }
  }

  /** Whatever a nested call did, cutting back to the caller's depth gives the caller's layers. */
  lemma CallReverts(body: Prog, root: Root, m: Layered)
    requires m.layers != []
    ensures RunLayered(body, root, m.(layers := Pushed(m.layers))).1.layers[..|m.layers|] == m.layers
  {
    RunKeepsBelow(body, root, m.(layers := Pushed(m.layers)));
    assert Pushed(m.layers)[..|m.layers|] == m.layers;
  }

  /** For the rest of the message a nested call that did not end well only changed the two counters. */
  lemma FailedCall(body: Prog, c: imap<Outcome, Prog>, root: Root, m: Layered)
    requires m.layers != []
    ensures var (out, m1) := RunLayered(body, root, m.(layers := Pushed(m.layers)));
            out.status != Ok && out in c ==>
              RunLayered(Call(body, c), root, m) == RunLayered(c[out], root, m.(refund := m1.refund, gas := m1.gas))
  {
    PushedOver(m.layers);
    LayeredCall(body, c, root, m);
    hide RunLayered, Pushed;
    CallReverts(body, root, m);
    var (out, m1) := RunLayered(body, root, m.(layers := Pushed(m.layers)));
    assert m1.(layers := m.layers) == m.(refund := m1.refund, gas := m1.gas);
  }

  // ----- What a program can and cannot touch -----

  /** The logs a run leaves behind, in emission order: those of a call that did not end well are
      gone with it. */
  function Emitted(p: Prog, root: Root, m: Machine): seq<Log>
    decreases p
  {
    match p
    case Done(out) => []
    case Load(k, c) =>
      var v := Read(root, m.flat, k);
      if v in c then Emitted(c[v], root, m) else []
    case Store(k, v, next) => Emitted(next, root, m.(flat := PutFlat(m.flat, Raw(k), v)))
    case AskSuicided(a, yes, no) => if Suicided(m.flat.top, a) then Emitted(yes, root, m) else Emitted(no, root, m)
    case Emit(log, next) => [log] + Emitted(next, root, m.(flat := LogFlat(m.flat, log)))
    case Refund(d, next) => Emitted(next, root, m.(refund := Refunded(m.refund, d)))
    case ReadRefund(c) => if m.refund in c then Emitted(c[m.refund], root, m) else []
    case BuyGas(g, ok, short) =>
      if g <= m.gas then Emitted(ok, root, m.(gas := m.gas - g)) else Emitted(short, root, m)
    case ReturnGas(g, next) => Emitted(next, root, m.(gas := m.gas + g))
    case Call(body, c) =>
      var inner := m.(flat := SnapFlat(m.flat));
      var (out, m1) := Run(body, root, inner);
      var m2 := if out.status.Ok? then m1 else m1.(flat := m.flat);
      (if out.status.Ok? then Emitted(body, root, inner) else []) +
      (if out in c then Emitted(c[out], root, m2) else [])
  }

  /** A run appends its surviving logs to the current transaction's, and touches no other
      transaction's logs, no receipt and not the current transaction itself. */
  ghost predicate Appends(f: Flat, f': Flat, emitted: seq<Log>) {
    && f'.cur == f.cur
    && f'.receipts == f.receipts
    && forall h :: LogsAt(f'.logs, h) == LogsAt(f.logs, h) + if h == f.cur then emitted else []
  }

  lemma AppendsChain(f: Flat, f1: Flat, f2: Flat, e1: seq<Log>, e2: seq<Log>)
    requires Appends(f, f1, e1) && Appends(f1, f2, e2)
    ensures Appends(f, f2, e1 + e2)
  {
  }

  lemma {:induction false} RunAppends(p: Prog, root: Root, m: Machine)
    ensures Appends(m.flat, Run(p, root, m).1.flat, Emitted(p, root, m))
    decreases p
  {
    hide Raw, Suicided;
    match p
    case Done(_) =>
    case Load(k, c) =>
      var v := Read(root, m.flat, k);
      if v in c { RunAppends(c[v], root, m); }
    case Store(k, v, next) => RunAppends(next, root, m.(flat := PutFlat(m.flat, Raw(k), v)));
    case AskSuicided(a, yes, no) =>
      if Suicided(m.flat.top, a) { RunAppends(yes, root, m); } else { RunAppends(no, root, m); }
    case Emit(log, next) =>
      var m' := m.(flat := LogFlat(m.flat, log));
      RunAppends(next, root, m');
      AppendsChain(m.flat, m'.flat, Run(next, root, m').1.flat, [log], Emitted(next, root, m'));
    case Refund(d, next) => RunAppends(next, root, m.(refund := Refunded(m.refund, d)));
    case ReadRefund(c) => if m.refund in c { RunAppends(c[m.refund], root, m); }
    case BuyGas(g, ok, short) =>
      if g <= m.gas { RunAppends(ok, root, m.(gas := m.gas - g)); } else { RunAppends(short, root, m); }
    case ReturnGas(g, next) => RunAppends(next, root, m.(gas := m.gas + g));
    case Call(body, c) => RunAppendsCall(body, c, root, m);
  }

  lemma {:induction false} RunAppendsCall(body: Prog, c: imap<Outcome, Prog>, root: Root, m: Machine)
    ensures Appends(m.flat, Run(Call(body, c), root, m).1.flat, Emitted(Call(body, c), root, m))
    decreases Call(body, c), 0
  {
    var inner := m.(flat := SnapFlat(m.flat));
    var (out, m1) := Run(body, root, inner);
    RunAppends(body, root, inner);
    var m2 := if out.status.Ok? then m1 else m1.(flat := m.flat);
    var e1 := if out.status.Ok? then Emitted(body, root, inner) else [];
    assert Appends(m.flat, m2.flat, e1);
    if out in c {
      RunAppends(c[out], root, m2);
      AppendsChain(m.flat, m2.flat, Run(c[out], root, m2).1.flat, e1, Emitted(c[out], root, m2));
    }
  }

  /** The part of a state a program can observe: everything but the stored receipts. */
  function NoReceipts(m: Machine): Machine {
    m.(flat := m.flat.(receipts := map[]))
  }

  lemma {:induction false} RunBlindToReceipts(p: Prog, root: Root, m: Machine, n: Machine)
    requires NoReceipts(m) == NoReceipts(n)
    ensures var (out, m'), (out', n') := Run(p, root, m), Run(p, root, n);
            out == out' && NoReceipts(m') == NoReceipts(n')
    decreases p
  {
    hide Raw, Suicided;
    match p
    case Done(_) =>
    case Load(k, c) =>
      var v := Read(root, m.flat, k);
      if v in c { RunBlindToReceipts(c[v], root, m, n); }
    case Store(k, v, next) =>
      RunBlindToReceipts(next, root, m.(flat := PutFlat(m.flat, Raw(k), v)), n.(flat := PutFlat(n.flat, Raw(k), v)));
    case AskSuicided(a, yes, no) =>
      if Suicided(m.flat.top, a) { RunBlindToReceipts(yes, root, m, n); } else { RunBlindToReceipts(no, root, m, n); }
    case Emit(log, next) =>
      RunBlindToReceipts(next, root, m.(flat := LogFlat(m.flat, log)), n.(flat := LogFlat(n.flat, log)));
    case Refund(d, next) =>
      var r := Refunded(m.refund, d);
      RunBlindToReceipts(next, root, m.(refund := r), n.(refund := r));
    case ReadRefund(c) => if m.refund in c { RunBlindToReceipts(c[m.refund], root, m, n); }
    case BuyGas(g, ok, short) =>
      if g <= m.gas {
        RunBlindToReceipts(ok, root, m.(gas := m.gas - g), n.(gas := n.gas - g));
      } else {
        RunBlindToReceipts(short, root, m, n);
      }
    case ReturnGas(g, next) => RunBlindToReceipts(next, root, m.(gas := m.gas + g), n.(gas := n.gas + g));
    case Call(body, c) => CallBlindToReceipts(body, c, root, m, n);
  }

  lemma {:induction false} CallBlindToReceipts(body: Prog, c: imap<Outcome, Prog>, root: Root, m: Machine, n: Machine)
    requires NoReceipts(m) == NoReceipts(n)
    ensures var (out, m'), (out', n') := Run(Call(body, c), root, m), Run(Call(body, c), root, n);
            out == out' && NoReceipts(m') == NoReceipts(n')
    decreases Call(body, c), 0
  {
    hide Raw, Suicided;
    var mi, ni := m.(flat := SnapFlat(m.flat)), n.(flat := SnapFlat(n.flat));
    RunBlindToReceipts(body, root, mi, ni);
    var (out, m1) := Run(body, root, mi);
    var (_, n1) := Run(body, root, ni);
    if out in c {
      RunBlindToReceipts(c[out], root,
        if out.status.Ok? then m1 else m1.(flat := m.flat), if out.status.Ok? then n1 else n1.(flat := n.flat));
    }
  }

  // ----- The gas pool -----

  /** No purchase of the run finds the pool too small. */
  predicate EnoughGas(p: Prog, root: Root, m: Machine)
    decreases p
  {
    match p
    case Done(out) => true
    case Load(k, c) =>
      var v := Read(root, m.flat, k);
      v in c ==> EnoughGas(c[v], root, m)
    case Store(k, v, next) => EnoughGas(next, root, m.(flat := PutFlat(m.flat, Raw(k), v)))
    case AskSuicided(a, yes, no) =>
      if Suicided(m.flat.top, a) then EnoughGas(yes, root, m) else EnoughGas(no, root, m)
    case Emit(log, next) => EnoughGas(next, root, m.(flat := LogFlat(m.flat, log)))
    case Refund(d, next) => EnoughGas(next, root, m.(refund := Refunded(m.refund, d)))
    case ReadRefund(c) => m.refund in c ==> EnoughGas(c[m.refund], root, m)
    case BuyGas(g, ok, short) => g <= m.gas && EnoughGas(ok, root, m.(gas := m.gas - g))
    case ReturnGas(g, next) => EnoughGas(next, root, m.(gas := m.gas + g))
    case Call(body, c) =>
      var inner := m.(flat := SnapFlat(m.flat));
      var (out, m1) := Run(body, root, inner);
      var m2 := if out.status.Ok? then m1 else m1.(flat := m.flat);
      EnoughGas(body, root, inner) && (out in c ==> EnoughGas(c[out], root, m2))
  }

  /** The size of the pool shows only through failed purchases: two runs that have none differ in
      nothing but the pool, and a bigger pool is never worse. */
  lemma {:induction false} GasPoolSize(p: Prog, root: Root, m: Machine, gas: nat)
    requires EnoughGas(p, root, m)
    requires gas >= m.gas || EnoughGas(p, root, m.(gas := gas))
    ensures EnoughGas(p, root, m.(gas := gas))
    ensures var (out, m'), (out', n') := Run(p, root, m), Run(p, root, m.(gas := gas));
            out == out' && n' == m'.(gas := n'.gas) && n'.gas - gas == m'.gas - m.gas
    decreases p
  {
    hide Raw, Suicided, PutFlat, LogFlat, Read, Refunded, SnapFlat;
    var n := m.(gas := gas);
    match p
    case Done(_) =>
    case Load(k, c) =>
      var v := Read(root, m.flat, k);
      if v in c { GasPoolSize(c[v], root, m, gas); }
    case Store(k, v, next) => GasPoolSize(next, root, m.(flat := PutFlat(m.flat, Raw(k), v)), gas);
    case AskSuicided(a, yes, no) =>
      if Suicided(m.flat.top, a) { GasPoolSize(yes, root, m, gas); } else { GasPoolSize(no, root, m, gas); }
    case Emit(log, next) => GasPoolSize(next, root, m.(flat := LogFlat(m.flat, log)), gas);
    case Refund(d, next) => GasPoolSize(next, root, m.(refund := Refunded(m.refund, d)), gas);
    case ReadRefund(c) => if m.refund in c { GasPoolSize(c[m.refund], root, m, gas); }
    case BuyGas(g, ok, _) => GasPoolSize(ok, root, m.(gas := m.gas - g), gas - g);
    case ReturnGas(g, next) => GasPoolSize(next, root, m.(gas := m.gas + g), gas + g);
    case Call(body, c) => GasPoolCall(body, c, root, m, gas);
  }

  lemma {:induction false} GasPoolCall(body: Prog, c: imap<Outcome, Prog>, root: Root, m: Machine, gas: nat)
    requires EnoughGas(Call(body, c), root, m)
    requires gas >= m.gas || EnoughGas(Call(body, c), root, m.(gas := gas))
    ensures EnoughGas(Call(body, c), root, m.(gas := gas))
    ensures var (out, m'), (out', n') := Run(Call(body, c), root, m), Run(Call(body, c), root, m.(gas := gas));
            out == out' && n' == m'.(gas := n'.gas) && n'.gas - gas == m'.gas - m.gas
    decreases Call(body, c), 0
  {
    hide Raw, Suicided, PutFlat, LogFlat, Read;
    var inner := m.(flat := SnapFlat(m.flat));
    GasPoolSize(body, root, inner, gas);
    var (out, m1) := Run(body, root, inner);
    var (_, n1) := Run(body, root, inner.(gas := gas));
    if out in c {
      GasPoolSize(c[out], root, if out.status.Ok? then m1 else m1.(flat := m.flat), n1.gas);
    }
  }

  // ----- Suicide queries -----

  /** No suicide query of the run is answered from the layer the program started on: each comes
      inside a nested call or after one that ended well, whose layers are the program's own. */
  predicate AsksInside(p: Prog, root: Root, m: Machine, inside: bool)
    decreases p
  {
    match p
    case Done(out) => true
    case Load(k, c) =>
      var v := Read(root, m.flat, k);
      v in c ==> AsksInside(c[v], root, m, inside)
    case Store(k, v, next) => AsksInside(next, root, m.(flat := PutFlat(m.flat, Raw(k), v)), inside)
    case AskSuicided(a, yes, no) =>
      inside && if Suicided(m.flat.top, a) then AsksInside(yes, root, m, inside) else AsksInside(no, root, m, inside)
    case Emit(log, next) => AsksInside(next, root, m.(flat := LogFlat(m.flat, log)), inside)
    case Refund(d, next) => AsksInside(next, root, m.(refund := Refunded(m.refund, d)), inside)
    case ReadRefund(c) => m.refund in c ==> AsksInside(c[m.refund], root, m, inside)
    case BuyGas(g, ok, short) =>
      if g <= m.gas then AsksInside(ok, root, m.(gas := m.gas - g), inside) else AsksInside(short, root, m, inside)
    case ReturnGas(g, next) => AsksInside(next, root, m.(gas := m.gas + g), inside)
    case Call(body, c) =>
      var inner := m.(flat := SnapFlat(m.flat));
      var (out, m1) := Run(body, root, inner);
      var m2 := if out.status.Ok? then m1 else m1.(flat := m.flat);
      AsksInside(body, root, inner, true) && (out in c ==> AsksInside(c[out], root, m2, inside || out.status.Ok?))
  }

  /** The same reads, refund and gas; inside, the same answers to suicide queries too. */
  ghost predicate Same(m: Machine, n: Machine, inside: bool) {
    && m.flat.view == n.flat.view && m.refund == n.refund && m.gas == n.gas
    && (inside ==> forall a: Address :: Suicided(m.flat.top, a) == Suicided(n.flat.top, a))
  }

  lemma StoreSame(m: Machine, n: Machine, inside: bool, k: Key, v: Bytes)
    requires Same(m, n, inside)
    ensures Same(m.(flat := PutFlat(m.flat, Raw(k), v)), n.(flat := PutFlat(n.flat, Raw(k), v)), inside)
  {
    hide Raw;
    var m', n' := PutFlat(m.flat, Raw(k), v), PutFlat(n.flat, Raw(k), v);
    forall a: Address | inside ensures Suicided(m'.top, a) == Suicided(n'.top, a) {
      assert Suicided(m.flat.top, a) == Suicided(n.flat.top, a);
    }
  }

  /** If every suicide query comes where the answers are the same, the run is the same. */
  lemma {:induction false} RunSeesReads(p: Prog, root: Root, m: Machine, n: Machine, inside: bool)
    requires Same(m, n, inside) && AsksInside(p, root, m, inside)
    ensures var (out, m'), (out', n') := Run(p, root, m), Run(p, root, n); out == out' && Same(m', n', inside)
    ensures EnoughGas(p, root, m) == EnoughGas(p, root, n)
    decreases p
  {
    hide Raw, Suicided;
    match p
    case Done(_) =>
    case Load(k, c) =>
      var v := Read(root, m.flat, k);
      assert Read(root, n.flat, k) == v;
      if v in c { RunSeesReads(c[v], root, m, n, inside); }
    case Store(k, v, next) =>
      StoreSame(m, n, inside, k, v);
      RunSeesReads(next, root, m.(flat := PutFlat(m.flat, Raw(k), v)), n.(flat := PutFlat(n.flat, Raw(k), v)), inside);
    case AskSuicided(a, yes, no) =>
      if Suicided(m.flat.top, a) {
        RunSeesReads(yes, root, m, n, inside);
      } else {
        RunSeesReads(no, root, m, n, inside);
      }
    case Emit(log, next) =>
      RunSeesReads(next, root, m.(flat := LogFlat(m.flat, log)), n.(flat := LogFlat(n.flat, log)), inside);
    case Refund(d, next) =>
      var r := Refunded(m.refund, d);
      RunSeesReads(next, root, m.(refund := r), n.(refund := r), inside);
    case ReadRefund(c) => if m.refund in c { RunSeesReads(c[m.refund], root, m, n, inside); }
    case BuyGas(g, ok, short) =>
      if g <= m.gas {
        RunSeesReads(ok, root, m.(gas := m.gas - g), n.(gas := n.gas - g), inside);
      } else {
        RunSeesReads(short, root, m, n, inside);
      }
    case ReturnGas(g, next) => RunSeesReads(next, root, m.(gas := m.gas + g), n.(gas := n.gas + g), inside);
    case Call(body, c) => CallSeesReads(body, c, root, m, n, inside);
  }

  lemma {:induction false} CallSeesReads(body: Prog, c: imap<Outcome, Prog>, root: Root, m: Machine, n: Machine,
                                         inside: bool)
    requires Same(m, n, inside) && AsksInside(Call(body, c), root, m, inside)
    ensures var (out, m'), (out', n') := Run(Call(body, c), root, m), Run(Call(body, c), root, n);
            out == out' && Same(m', n', inside)
    ensures EnoughGas(Call(body, c), root, m) == EnoughGas(Call(body, c), root, n)
    decreases Call(body, c), 0
  {
    hide Raw, Suicided;
    var mi, ni := m.(flat := SnapFlat(m.flat)), n.(flat := SnapFlat(n.flat));
    RunSeesReads(body, root, mi, ni, true);
    var (out, m1) := Run(body, root, mi);
    var (_, n1) := Run(body, root, ni);
    if out in c {
      RunSeesReads(c[out], root, if out.status.Ok? then m1 else m1.(flat := m.flat),
        if out.status.Ok? then n1 else n1.(flat := n.flat), inside || out.status.Ok?);
    }
  }

  /** Where the answers are the same from the start, any query may come anywhere. */
  lemma {:induction false} AsksAnywhere(p: Prog, root: Root, m: Machine)
    ensures AsksInside(p, root, m, true)
    decreases p
  {
    hide Raw, Suicided;
    match p
    case Done(_) =>
    case Load(k, c) =>
      var v := Read(root, m.flat, k);
      if v in c { AsksAnywhere(c[v], root, m); }
    case Store(k, v, next) => AsksAnywhere(next, root, m.(flat := PutFlat(m.flat, Raw(k), v)));
    case AskSuicided(a, yes, no) =>
      if Suicided(m.flat.top, a) { AsksAnywhere(yes, root, m); } else { AsksAnywhere(no, root, m); }
    case Emit(log, next) => AsksAnywhere(next, root, m.(flat := LogFlat(m.flat, log)));
    case Refund(d, next) => AsksAnywhere(next, root, m.(refund := Refunded(m.refund, d)));
    case ReadRefund(c) => if m.refund in c { AsksAnywhere(c[m.refund], root, m); }
    case BuyGas(g, ok, short) =>
      if g <= m.gas { AsksAnywhere(ok, root, m.(gas := m.gas - g)); } else { AsksAnywhere(short, root, m); }
    case ReturnGas(g, next) => AsksAnywhere(next, root, m.(gas := m.gas + g));
    case Call(body, c) =>
      AsksAnywhere(body, root, m.(flat := SnapFlat(m.flat)));
      var (out, m1) := Run(body, root, m.(flat := SnapFlat(m.flat)));
      if out in c { AsksAnywhere(c[out], root, if out.status.Ok? then m1 else m1.(flat := m.flat)); }
  }

  /** No account is marked as suicided where a message started here would look. */
  ghost predicate Unmarked(m: Machine) {
    forall a: Address :: !Suicided(m.flat.top, a)
  }

  /** The same message from the same reads and refund, with at least the gas: it ends the same way if it
      asks for suicides only inside its calls, or if nothing is marked in either state. */
  lemma SameOutcome(p: Prog, root: Root, at: Machine, called: Machine)
    requires called.flat.view == at.flat.view && called.refund == at.refund && called.gas >= at.gas
    requires EnoughGas(p, root, at)
    requires AsksInside(p, root, at, false) || (Unmarked(at) && Unmarked(called))
    ensures Run(p, root, called).0 == Run(p, root, at).0
  {
    hide Run, EnoughGas, AsksInside, Suicided;
    var inside := Unmarked(at) && Unmarked(called);
    if inside {
      AsksAnywhere(p, root, at);
    }
    RunSeesReads(p, root, at, called.(gas := at.gas), inside);
    GasPoolSize(p, root, called.(gas := at.gas), called.gas);
  }

  ghost predicate EndsAlike(p: Prog, root: Root, at: Machine, called: Machine) {
    EnoughGas(p, root, at) ==> Run(p, root, called).0 == Run(p, root, at).0
  }

  /** Over all messages the condition is exact: they all end the same way if and only if nothing is
      marked in the top layer that the second state has to offer. */
  lemma MarksDecide(root: Root, at: Machine, called: Machine)
    requires called.flat.view == at.flat.view && called.refund == at.refund && called.gas >= at.gas
    requires Unmarked(at)
    ensures (forall p: Prog :: EndsAlike(p, root, at, called)) <==> Unmarked(called)
  {
    if Unmarked(called) {
      forall p: Prog ensures EndsAlike(p, root, at, called) {
        if EnoughGas(p, root, at) {
          SameOutcome(p, root, at, called);
        }
      }
    } else {
      hide Suicided;
      var a: Address :| Suicided(called.flat.top, a);
      var yes, no := Done(Outcome(Failed, 0, [])), Done(Outcome(Ok, 0, []));
      var p := AskSuicided(a, yes, no);
      assert !Suicided(at.flat.top, a);
      assert Run(p, root, called) == Run(yes, root, called) == (Outcome(Failed, 0, []), called);
      assert Run(p, root, at) == Run(no, root, at) == (Outcome(Ok, 0, []), at);
      assert EnoughGas(no, root, at) && EnoughGas(p, root, at);
      assert !EndsAlike(p, root, at, called);
    }
  }
}
