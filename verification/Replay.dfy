/** The transaction pool and the live state (mferbackend, mfertxpool): over every run of requests
    the live state is a replay of the pool. */
module Replay {
  import opened Words
  import opened Keys
  import opened Upstream
  import opened Layers
  import opened Programs
  import opened Execution

  /** `since` is the refund counter found by the last reset: no reset clears it. */
  datatype Backend = Backend(live: Machine, txs: seq<Tx>, results: seq<ExecResult>, since: nat)

  datatype Request =
    | Send(tx: Tx)
    | ClearTxPool
    | ReExecTxPool
    | Trace(hash: TxHash)

  function Start(env: Env): Backend {
    Backend(Fresh(env, 0), [], [], 0)
  }

  /** The first pool position holding the hash, or the length of the pool. */
  function Find(txs: seq<Tx>, h: TxHash): (i: nat)
    ensures i <= |txs|
    ensures forall j :: 0 <= j < i ==> txs[j].hash != h
    ensures i < |txs| ==> txs[i].hash == h
  {
    if txs == [] || txs[0].hash == h then 0 else 1 + Find(txs[1..], h)
  }

  /** TraceTransaction rebuilds on a clone of the root, whose refund counter starts at 0, but takes
      its gas from the live pool. */
  function Rebuilt(env: Env, gas: nat, txs: seq<Tx>, n: nat): Machine
    requires n <= |txs|
  {
    ExecAll(env, true, txs[..n], Fresh(env, 0).(gas := gas)).1
  }

  function Serve(env: Env, b: Backend, r: Request): Backend {
    match r
    case Send(tx) =>
      var (res, m) := Exec(env, 0, b.live, tx);
      Backend(m, b.txs + [tx], b.results + [res], b.since)
    case ClearTxPool => Backend(Fresh(env, b.live.refund), [], [], b.live.refund)
    case ReExecTxPool =>
      var (results, m) := ExecAll(env, true, b.txs, Fresh(env, b.live.refund));
      Backend(m, b.txs, results, b.live.refund)
    case Trace(h) =>
      var i := Find(b.txs, h);
      if i == |b.txs| then b
      else b.(live := b.live.(gas := Rebuilt(env, b.live.gas, b.txs, i).gas))
  }

  function ServeAll(env: Env, b: Backend, rs: seq<Request>): Backend
    decreases |rs|
  {
    if rs == [] then b else ServeAll(env, Serve(env, b, rs[0]), rs[1..])
  }

  /** Replaying the pool from a freshly derived root with the fake accounts funded. */
  function Replayed(env: Env, b: Backend): (seq<ExecResult>, Machine) {
    ExecAll(env, false, b.txs, Fresh(env, b.since))
  }

  /** The live state, its gas pool and its refund counter are the replay's (up to the indexes in
      the receipts), and result i is the result of transaction i in it. */
  ghost predicate IsReplay(env: Env, b: Backend) {
    && b.results == Replayed(env, b).0
    && Alike(b.live, Replayed(env, b).1)
  }

  lemma ServeKeepsReplay(env: Env, b: Backend, r: Request)
    requires IsReplay(env, b) && !r.Trace?
    ensures IsReplay(env, Serve(env, b, r))
  {
    var b' := Serve(env, b, r);
    match r
    case Send(tx) =>
      var (results, m) := Replayed(env, b);
      ExecAlike(env, 0, 0, b.live, m, tx);
      assert b'.txs[..|b'.txs| - 1] == b.txs;
    case ClearTxPool =>
    case ReExecTxPool =>
      var m := Fresh(env, b.live.refund);
      ExecAllAlike(env, true, false, b.txs, m, m);
  }

  /** The transactions sent since the last clear, in order. */
  function SentSince(rs: seq<Request>): seq<Tx> {
    if rs == [] then []
    else
      var before := SentSince(rs[..|rs| - 1]);
      match rs[|rs| - 1]
      case Send(tx) => before + [tx]
      case ClearTxPool => []
      case ReExecTxPool => before
      case Trace(_) => before
  }

  /** The pool holds just these, with a result for each. */
  lemma {:induction false} PoolHolds(env: Env, rs: seq<Request>)
    ensures ServeAll(env, Start(env), rs).txs == SentSince(rs)
    ensures |ServeAll(env, Start(env), rs).results| == |SentSince(rs)|
    decreases |rs|
  {
    hide Exec, Fresh, Rebuilt;
    if rs != [] {
      var n := |rs| - 1;
      PoolHolds(env, rs[..n]);
      ServeAllSplit(env, Start(env), rs[..n], rs[n..]);
      assert rs[..n] + rs[n..] == rs && rs[n..][1..] == [];
      assert ServeAll(env, Serve(env, ServeAll(env, Start(env), rs[..n]), rs[n]), []) ==
             Serve(env, ServeAll(env, Start(env), rs[..n]), rs[n]);
    }
  }

  /** Pool replay invariant, over every run of sends, clears and re-executions. */
  lemma {:induction false} RunKeepsReplay(env: Env, b: Backend, rs: seq<Request>)
    requires IsReplay(env, b)
    requires forall i :: 0 <= i < |rs| ==> !rs[i].Trace?
    ensures IsReplay(env, ServeAll(env, b, rs))
    decreases |rs|
  {
    if rs != [] {
      ServeKeepsReplay(env, b, rs[0]);
      RunKeepsReplay(env, Serve(env, b, rs[0]), rs[1..]);
    }
  }

  lemma PoolReplay(env: Env, rs: seq<Request>)
    requires forall i :: 0 <= i < |rs| ==> !rs[i].Trace?
    ensures IsReplay(env, ServeAll(env, Start(env), rs))
  {
    hide Fresh, Exec;
    RunKeepsReplay(env, Start(env), rs);
  }

  /** A clear or a re-execution makes the live state a replay whatever it was before. */
  lemma ResetRestores(env: Env, b: Backend, r: Request)
    requires r.ClearTxPool? || r.ReExecTxPool?
    ensures IsReplay(env, Serve(env, b, r))
  {
    var m := Fresh(env, b.live.refund);
    ExecAllAlike(env, true, false, b.txs, m, m);
  }

  lemma {:induction false} ServeAllSplit(env: Env, b: Backend, rs: seq<Request>, ss: seq<Request>)
    ensures ServeAll(env, b, rs + ss) == ServeAll(env, ServeAll(env, b, rs), ss)
    decreases |rs|
  {
    if rs == [] {
      assert rs + ss == ss;
    } else {
      assert (rs + ss)[1..] == rs[1..] + ss;
      ServeAllSplit(env, Serve(env, b, rs[0]), rs[1..], ss);
    }
  }

  /** With traces in the run the invariant holds again from the next reset on. */
  lemma ReplayAfterReset(env: Env, pre: seq<Request>, reset: Request, post: seq<Request>)
    requires reset.ClearTxPool? || reset.ReExecTxPool?
    requires forall i :: 0 <= i < |post| ==> !post[i].Trace?
    ensures IsReplay(env, ServeAll(env, Start(env), pre + ([reset] + post)))
  {
    var b := ServeAll(env, Start(env), pre);
    ServeAllSplit(env, Start(env), pre, [reset] + post);
    assert ([reset] + post)[1..] == post;
    ResetRestores(env, b, reset);
    RunKeepsReplay(env, Serve(env, b, reset), post);
  }

  // ----- Tracing -----

  ghost predicate EnoughForAll(env: Env, txs: seq<Tx>, m: Machine) {
    forall j :: 0 <= j < |txs| ==>
      EnoughGas(env.apply(txs[j]), env.root, Prepared(Before(env, txs, j, m), txs[j]))
  }

  lemma EnoughForPrefix(env: Env, txs: seq<Tx>, n: nat, m: Machine)
    requires n <= |txs| && EnoughForAll(env, txs, m)
    ensures EnoughForAll(env, txs[..n], m)
  {
    forall j | 0 <= j < n
      ensures EnoughGas(env.apply(txs[..n][j]), env.root, Prepared(Before(env, txs[..n], j, m), txs[..n][j]))
    {
      assert txs[..n][..j] == txs[..j];
    }
  }

  lemma ExecGas(env: Env, index: nat, m: Machine, gas: nat, tx: Tx)
    requires EnoughGas(env.apply(tx), env.root, Prepared(m, tx))
    requires EnoughGas(env.apply(tx), env.root, Prepared(m.(gas := gas), tx))
    ensures var (res, m'), (res', n') := Exec(env, index, m, tx), Exec(env, index, m.(gas := gas), tx);
            res == res' && n' == m'.(gas := n'.gas) && n'.gas - gas == m'.gas - m.gas
  {
    hide Raw, Run, EnoughGas;
    GasPoolSize(env.apply(tx), env.root, Prepared(m, tx), gas);
  }

  lemma {:induction false} GasDoesNotShow(env: Env, txs: seq<Tx>, m: Machine, gas: nat)
    requires EnoughForAll(env, txs, m) && EnoughForAll(env, txs, m.(gas := gas))
    ensures var (results, m1), (results', n1) := ExecAll(env, true, txs, m), ExecAll(env, true, txs, m.(gas := gas));
            results == results' && n1 == m1.(gas := n1.gas) && n1.gas - gas == m1.gas - m.gas
    decreases |txs|
  {
    hide Exec, EnoughGas, Prepared;
    if txs != [] {
      var n := |txs| - 1;
      EnoughForPrefix(env, txs, n, m);
      EnoughForPrefix(env, txs, n, m.(gas := gas));
      GasDoesNotShow(env, txs[..n], m, gas);
      var m1, n1 := Before(env, txs, n, m), Before(env, txs, n, m.(gas := gas));
      assert EnoughGas(env.apply(txs[n]), env.root, Prepared(m1, txs[n]));
      assert EnoughGas(env.apply(txs[n]), env.root, Prepared(n1, txs[n]));
      ExecGas(env, n, m1, n1.gas, txs[n]);
    }
  }

  /** Tracing takes from the live gas pool what the rebuilt prefix used, and nothing else. If no
      prefix transaction finds the pool too small, the invariant survives exactly when the hash is not
      in the pool or replaying the prefix from a full gas pool leaves it full. */
  lemma TraceTakesGas(env: Env, b: Backend, h: TxHash)
    requires IsReplay(env, b)
    ensures var b' := Serve(env, b, Trace(h));
            b'.live.(gas := b.live.gas) == b.live && b'.(live := b.live) == b
    ensures var i := Find(b.txs, h);
            EnoughForAll(env, b.txs[..i], Fresh(env, 0)) &&
            EnoughForAll(env, b.txs[..i], Fresh(env, 0).(gas := b.live.gas)) ==>
              (IsReplay(env, Serve(env, b, Trace(h))) <==>
                 i == |b.txs| || Before(env, b.txs, i, Fresh(env, 0)).gas == env.gasLimit)
  {
    hide Exec, ExecAll, EnoughForAll, Funded;
    var i := Find(b.txs, h);
    if EnoughForAll(env, b.txs[..i], Fresh(env, 0)) &&
       EnoughForAll(env, b.txs[..i], Fresh(env, 0).(gas := b.live.gas))
    {
      GasDoesNotShow(env, b.txs[..i], Fresh(env, 0), b.live.gas);
    }
  }

  /** Trace-time rebuild: the state rebuilt before pool transaction i is the state the transaction
      met when it was sent (`sent` is the backend at that moment), up to gas and receipt indexes,
      provided the refund counter was 0 at the last reset and neither run found the gas pool
      too small. */
  lemma TraceRebuild(env: Env, sent: Backend, now: Backend, i: nat)
    requires IsReplay(env, sent) && sent.since == 0
    requires i <= |now.txs| && now.txs[..i] == sent.txs
    requires EnoughForAll(env, sent.txs, Fresh(env, 0))
    requires EnoughForAll(env, sent.txs, Fresh(env, 0).(gas := now.live.gas))
    ensures var rebuilt := Rebuilt(env, now.live.gas, now.txs, i);
            Alike(rebuilt.(gas := sent.live.gas), sent.live)
  {
    GasDoesNotShow(env, sent.txs, Fresh(env, 0), now.live.gas);
    ExecAllAlike(env, true, false, sent.txs, Fresh(env, 0), Fresh(env, 0));
  }

  /** The state DoCall starts the traced message from: no snapshot is taken of the rebuilt state. */
  function CallStart(env: Env, gas: nat, txs: seq<Tx>, i: nat): Machine
    requires i < |txs|
  {
    var m := Rebuilt(env, gas, txs, i);
    m.(gas := TWO_64 - 1, flat := Cleared(m.flat, txs[i].from))
  }

  /** TraceTransaction's answer: DoCall on the rebuilt state, with a gas pool of its own. */
  function Traced(env: Env, gas: nat, txs: seq<Tx>, i: nat): Outcome
    requires i < |txs|
  {
    Run(env.apply(txs[i]), env.root, CallStart(env, gas, txs, i)).0
  }

  /** Under the conditions of the rebuild, the traced message starts from the reads and the refund that
      the sent one started from; what else it could see are the suicide marks of the rebuilt top. */
  lemma SameStart(env: Env, sent: Backend, now: Backend, i: nat)
    requires IsReplay(env, sent) && sent.since == 0 && sent.live.gas < TWO_64
    requires i < |now.txs| && now.txs[..i] == sent.txs
    requires EnoughForAll(env, sent.txs, Fresh(env, 0))
    requires EnoughForAll(env, sent.txs, Fresh(env, 0).(gas := now.live.gas))
    ensures var at, called := Prepared(sent.live, now.txs[i]), CallStart(env, now.live.gas, now.txs, i);
            && called.flat.view == at.flat.view && called.refund == at.refund && called.gas >= at.gas
            && Unmarked(at) && (Unmarked(called) <==> Unmarked(Rebuilt(env, now.live.gas, now.txs, i)))
  {
    hide Raw, Run, EnoughForAll, Fresh, Rebuilt;
    TraceRebuild(env, sent, now, i);
    var tx := now.txs[i];
    var m := Rebuilt(env, now.live.gas, now.txs, i);
    forall a: Address
      ensures Suicided(CallStart(env, now.live.gas, now.txs, i).flat.top, a) == Suicided(m.flat.top, a)
    {
      RawInjective(Suicide(a), CodeHash(tx.from));
    }
  }

  /** The trace reports the outcome that the transaction had when it was sent, if moreover its own gas
      was there and it asks for suicides only inside its calls, as a message of the EVM does, or nothing
      is marked in the rebuilt top layer. */
  lemma TraceOutcome(env: Env, sent: Backend, now: Backend, i: nat)
    requires IsReplay(env, sent) && sent.since == 0 && sent.live.gas < TWO_64
    requires i < |now.txs| && now.txs[..i] == sent.txs
    requires EnoughForAll(env, sent.txs, Fresh(env, 0))
    requires EnoughForAll(env, sent.txs, Fresh(env, 0).(gas := now.live.gas))
    requires var at := Prepared(sent.live, now.txs[i]);
             var p := env.apply(now.txs[i]);
             EnoughGas(p, env.root, at) &&
             (AsksInside(p, env.root, at, false) || Unmarked(Rebuilt(env, now.live.gas, now.txs, i)))
    ensures Traced(env, now.live.gas, now.txs, i) == OutcomeOf(env, sent.live, now.txs[i])
  {
    hide Raw, Run, EnoughGas, AsksInside, EnoughForAll, Fresh, Rebuilt, Unmarked, Prepared;
    SameStart(env, sent, now, i);
    SameOutcome(env.apply(now.txs[i]), env.root, Prepared(sent.live, now.txs[i]),
      CallStart(env, now.live.gas, now.txs, i));
  }

  /** Over all messages with enough gas the marks are the exact condition: what DoCall reports is what
      ExecuteMsg came to, whatever the message, if and only if the rebuilt top layer has none. */
  lemma TraceExactly(env: Env, sent: Backend, now: Backend, i: nat)
    requires IsReplay(env, sent) && sent.since == 0 && sent.live.gas < TWO_64
    requires i < |now.txs| && now.txs[..i] == sent.txs
    requires EnoughForAll(env, sent.txs, Fresh(env, 0))
    requires EnoughForAll(env, sent.txs, Fresh(env, 0).(gas := now.live.gas))
    ensures var at, called := Prepared(sent.live, now.txs[i]), CallStart(env, now.live.gas, now.txs, i);
            (forall p: Prog :: EndsAlike(p, env.root, at, called)) <==> Unmarked(Rebuilt(env, now.live.gas, now.txs, i))
  {
    hide Raw, Run, EnoughGas, EnoughForAll, Fresh, Rebuilt, Unmarked, Prepared;
    SameStart(env, sent, now, i);
    MarksDecide(env.root, Prepared(sent.live, now.txs[i]), CallStart(env, now.live.gas, now.txs, i));
  }

  /** What pool transaction i met when it was sent, or last re-executed. */
  function Met(env: Env, now: Backend, i: nat): Machine
    requires i <= |now.txs|
  {
    ExecAll(env, false, now.txs[..i], Fresh(env, now.since)).1
  }

  /** The refund counter found by the last reset is all that can spoil it: with enough gas, the
      rebuild is right at every position of the pool if and only if that counter was 0. */
  lemma RebuildExactly(env: Env, now: Backend)
    requires EnoughForAll(env, now.txs, Fresh(env, 0))
    requires EnoughForAll(env, now.txs, Fresh(env, 0).(gas := now.live.gas))
    ensures now.since == 0 <==>
      forall i :: 0 <= i <= |now.txs| ==>
        Alike(Rebuilt(env, now.live.gas, now.txs, i).(gas := Met(env, now, i).gas), Met(env, now, i))
  {
    hide Exec, EnoughForAll;
    if now.since == 0 {
      forall i | 0 <= i <= |now.txs|
        ensures Alike(Rebuilt(env, now.live.gas, now.txs, i).(gas := Met(env, now, i).gas), Met(env, now, i))
      {
        EnoughForPrefix(env, now.txs, i, Fresh(env, 0));
        EnoughForPrefix(env, now.txs, i, Fresh(env, 0).(gas := now.live.gas));
        GasDoesNotShow(env, now.txs[..i], Fresh(env, 0), now.live.gas);
        ExecAllAlike(env, true, false, now.txs[..i], Fresh(env, 0), Fresh(env, 0));
      }
    } else {
      assert now.txs[..0] == [];
      assert Rebuilt(env, now.live.gas, now.txs, 0).refund == 0;
    }
  }

  // ----- Where the code falls short -----

  lemma ExecAllOne(env: Env, indexed: bool, a: Tx, m: Machine)
    ensures var (res, m') := Exec(env, 0, m, a); ExecAll(env, indexed, [a], m) == ([res], m')
  {
    assert [a][..0] == [];
    assert ExecAll(env, indexed, [], m) == ([], m);
    var (res, _) := Exec(env, 0, m, a);
    assert [] + [res] == [res];
  }

  function Program(p: Prog, gasLimit: nat): Env {
    Env((k: ReadKey) => [], (tx: Tx) => p, gasLimit, [])
  }

  /** Every transaction buys two units of gas and keeps them. */
  const THRIFTY: Env := Program(BuyGas(2, Done(Outcome(Ok, 2, [])), Done(STUCK)), 10)

  lemma ThriftyRun(a: Tx, index: nat, m: Machine)
    requires m.gas >= 2
    ensures Exec(THRIFTY, index, m, a).1.gas == m.gas - 2
  {
    hide Raw, Prepared, ReceiptFlat, LogFlat, NewReceipt, Cleared;
    PreparedCounters(m, a);
  }

  /** Two sends and a trace of the second: the live gas pool is no longer the replay's. */
  lemma TraceBreaksReplay(a: Tx, b: Tx)
    requires a.hash != b.hash
    ensures !IsReplay(THRIFTY, ServeAll(THRIFTY, Start(THRIFTY), [Send(a), Send(b), Trace(b.hash)]))
  {
    hide Exec, Funded, ExecAll, Prepared;
    var env := THRIFTY;
    var b1 := Serve(env, Start(env), Send(a));
    var b2 := Serve(env, b1, Send(b));
    ThriftyRun(a, 0, Fresh(env, 0));
    ThriftyRun(b, 0, b1.live);
    ThreeRequests(env, Start(env), Send(a), Send(b), Trace(b.hash));
    assert b2.txs == [a, b] && Find([a, b], b.hash) == 1 by {
      assert [a, b][1..] == [b];
    }
    assert [a, b][..1] == [a];
    ExecAllOne(env, true, a, Fresh(env, 0).(gas := 6));
    ThriftyRun(a, 0, Fresh(env, 0).(gas := 6));
    assert Rebuilt(env, 6, [a, b], 1).gas == 4;
    PoolReplay(env, []);
    assert ServeAll(env, Start(env), []) == Start(env);
    ServeKeepsReplay(env, Start(env), Send(a));
    ServeKeepsReplay(env, b1, Send(b));
  }

  lemma ThreeRequests(env: Env, b: Backend, r1: Request, r2: Request, r3: Request)
    ensures ServeAll(env, b, [r1, r2, r3]) == Serve(env, Serve(env, Serve(env, b, r1), r2), r3)
  {
    hide Serve;
    assert [r1, r2, r3][1..] == [r2, r3] && [r2, r3][1..] == [r3];
    var b1 := Serve(env, b, r1);
    var b2 := Serve(env, b1, r2);
    assert ServeAll(env, b2, [r3]) == Serve(env, b2, r3);
    assert ServeAll(env, b1, [r2, r3]) == ServeAll(env, b2, [r3]);
  }

  /** Re-executing meets, at every position of the pool, the state met before, if and only if the
      refund counter stands where the last reset found it; then it reproduces results, state and gas. */
  lemma ReExecReproduces(env: Env, b: Backend)
    ensures var b' := Serve(env, b, ReExecTxPool);
            (forall i :: 0 <= i <= |b.txs| ==> Alike(Met(env, b', i), Met(env, b, i))) <==> b.live.refund == b.since
    ensures var b' := Serve(env, b, ReExecTxPool);
            IsReplay(env, b) && b.live.refund == b.since ==>
              b'.results == b.results && Alike(b'.live, b.live) && b'.since == b.since
  {
    hide Exec, Funded;
    var b' := Serve(env, b, ReExecTxPool);
    var m := Fresh(env, b.since);
    if b.live.refund == b.since {
      ExecAllAlike(env, true, false, b.txs, m, m);
    } else {
      assert b.txs[..0] == [];
      assert !Alike(Met(env, b', 0), Met(env, b, 0));
    }
  }

  /** What anybody can see of it: two resets give the same results for all messages and pools if and
      only if they found the same refund counter. */
  lemma RefundShows(env: Env, r: nat, s: nat, hash: TxHash)
    ensures (forall apply: Tx -> Prog, txs: seq<Tx> ::
               ExecAll(env.(apply := apply), true, txs, Fresh(env, r)).0 ==
               ExecAll(env.(apply := apply), true, txs, Fresh(env, s)).0) <==> r == s
  {
    if r != s {
      var apply: Tx -> Prog := (tx: Tx) => ReadRefund(imap[r := Done(Outcome(Ok, 0, []))]);
      var a := Tx(hash, Zeros(20), []);
      var e := env.(apply := apply);
      ReadsCounter(e, r, a, Fresh(env, r));
      ReadsCounter(e, r, a, Fresh(env, s));
      ExecAllOne(e, true, a, Fresh(env, r));
      ExecAllOne(e, true, a, Fresh(env, s));
      assert ExecAll(env.(apply := apply), true, [a], Fresh(env, r)).0
          != ExecAll(env.(apply := apply), true, [a], Fresh(env, s)).0;
    }
  }

  lemma ReadsCounter(env: Env, r: nat, a: Tx, m: Machine)
    requires env.apply(a) == ReadRefund(imap[r := Done(Outcome(Ok, 0, []))])
    ensures Exec(env, 0, m, a).0 == if m.refund == r then Succeeded else Rejected
  {
    hide Raw, Prepared, ReceiptFlat, LogFlat, NewReceipt, Cleared;
    PreparedCounters(m, a);
    var done := Done(Outcome(Ok, 0, []));
    assert Run(done, env.root, Prepared(m, a)).0 == Outcome(Ok, 0, []);
  }

  /** The shape of a message in core.ApplyMessage: it buys its gas limit of 10, or is refused if the
      pool is short; it earns one unit of refund; at the end it gets back the refund counter, but no
      more than 2. */
  ghost function Message(): Prog {
    BuyGas(10, Refund(1, ReadRefund(imap n: nat | true :: Repaid(n))), Done(Outcome(Refused, 0, [])))
  }

  function Repaid(n: nat): Prog {
    ReturnGas(if n < 2 then n else 2, Done(Outcome(Ok, 8, [])))
  }

  /** A block with room for hardly two of them. */
  ghost function Narrow(): Env {
    Program(Message(), 18)
  }

  lemma MessageRun(a: Tx, m: Machine)
    requires m.refund + 1 < TWO_64
    ensures var (res, m') := Exec(Narrow(), 0, m, a);
            res == (if m.gas < 10 then Rejected else Succeeded) &&
            m'.refund == (if m.gas < 10 then m.refund else m.refund + 1) &&
            m'.gas == if m.gas < 10 then m.gas else m.gas - 10 + if m.refund == 0 then 1 else 2
  {
    hide Raw, Prepared, ReceiptFlat, LogFlat, NewReceipt, Cleared;
    var at := Prepared(m, a);
    PreparedCounters(m, a);
    var back := imap n: nat | true :: Repaid(n);
    assert Message() == BuyGas(10, Refund(1, ReadRefund(back)), Done(Outcome(Refused, 0, [])));
    if m.gas >= 10 {
      var n := m.refund + 1;
      var m1 := at.(gas := at.gas - 10, refund := n);
      assert Run(back[n], Narrow().root, m1) == (Outcome(Ok, 8, []), m1.(gas := m1.gas + if n < 2 then n else 2));
      assert Run(ReadRefund(back), Narrow().root, m1) == Run(back[n], Narrow().root, m1);
    }
  }

  lemma PreparedCounters(m: Machine, tx: Tx)
    ensures Prepared(m, tx).refund == m.refund && Prepared(m, tx).gas == m.gas
  {
  }

  /** No reset clears the counter, so re-executing the same pool under the same block context can end
      otherwise: the second message did not fit when it was sent, and fits when both are re-executed,
      since the first one now gets more gas back. */
  lemma RefundOutlivesReset(a: Tx, c: Tx)
    ensures var b := ServeAll(Narrow(), Start(Narrow()), [Send(a), Send(c)]);
            b.results == [Succeeded, Rejected] && Serve(Narrow(), b, ReExecTxPool).results == [Succeeded, Succeeded]
  {
    hide Exec, Message, Funded;
    var env := Narrow();
    var b1 := Serve(env, Start(env), Send(a));
    var b2 := Serve(env, b1, Send(c));
    MessageRun(a, Fresh(env, 0));
    MessageRun(c, b1.live);
    var rs := [Send(a), Send(c)];
    assert rs[1..] == [Send(c)];
    assert ServeAll(env, b2, []) == b2 && ServeAll(env, b1, [Send(c)]) == b2;
    assert ServeAll(env, Start(env), rs) == ServeAll(env, b1, [Send(c)]);
    assert b2.txs == [a, c] && b2.live.refund == 1;
    MessageRun(a, Fresh(env, 1));
    ExecTwo(env, a, c, Fresh(env, 1));
    var m1 := Exec(env, 0, Fresh(env, 1), a).1;
    MessageRun(c, m1);
    ExecIndex(env, 1, m1, c);
  }

  /** The number of a receipt shows in no result. */
  lemma ExecIndex(env: Env, i: nat, m: Machine, tx: Tx)
    ensures Exec(env, i, m, tx).0 == Exec(env, 0, m, tx).0
  {
  }

  lemma ExecTwo(env: Env, a: Tx, c: Tx, m: Machine)
    ensures var (res, m1) := Exec(env, 0, m, a);
            ExecAll(env, true, [a, c], m).0 == [res, Exec(env, 1, m1, c).0]
  {
    hide Exec;
    assert [a, c][..1] == [a] && [a, c][..2] == [a, c];
    ExecAllOne(env, true, a, m);
    ExecAllSnoc(env, true, [a, c], 1, m);
  }

  /** ClearTxPool empties the pool before it takes the state lock, then resets the state. */
  function PoolEmptied(b: Backend): Backend {
    b.(txs := [], results := [])
  }

  function StateReset(env: Env, b: Backend): Backend {
    b.(live := Fresh(env, b.live.refund), since := b.live.refund)
  }

  /** A run never loses an entry of the view: what a call reverts comes back as it was. */
  lemma {:induction false} RunKeepsKeys(p: Prog, root: Root, m: Machine)
    ensures m.flat.view.Keys <= Run(p, root, m).1.flat.view.Keys
    decreases p
  {
    hide Raw, Suicided, Read;
    match p
    case Done(_) =>
    case Load(k, c) =>
      var v := Read(root, m.flat, k);
      if v in c { RunKeepsKeys(c[v], root, m); }
    case Store(k, v, next) => RunKeepsKeys(next, root, m.(flat := PutFlat(m.flat, Raw(k), v)));
    case AskSuicided(a, yes, no) =>
      if Suicided(m.flat.top, a) { RunKeepsKeys(yes, root, m); } else { RunKeepsKeys(no, root, m); }
    case Emit(log, next) => RunKeepsKeys(next, root, m.(flat := LogFlat(m.flat, log)));
    case Refund(d, next) => RunKeepsKeys(next, root, m.(refund := Refunded(m.refund, d)));
    case ReadRefund(c) => if m.refund in c { RunKeepsKeys(c[m.refund], root, m); }
    case BuyGas(g, ok, short) =>
      if g <= m.gas { RunKeepsKeys(ok, root, m.(gas := m.gas - g)); } else { RunKeepsKeys(short, root, m); }
    case ReturnGas(g, next) => RunKeepsKeys(next, root, m.(gas := m.gas + g));
    case Call(body, c) =>
      RunKeepsKeys(body, root, m.(flat := SnapFlat(m.flat)));
      var (out, m1) := Run(body, root, m.(flat := SnapFlat(m.flat)));
      if out in c { RunKeepsKeys(c[out], root, if out.status.Ok? then m1 else m1.(flat := m.flat)); }
  }

  /** Any message, rejected or not, leaves its sender's zeroed code hash in the view. */
  lemma ExecLeavesKey(env: Env, index: nat, m: Machine, tx: Tx)
    ensures m.flat.view.Keys + {Raw(CodeHash(tx.from))} <= Exec(env, index, m, tx).1.flat.view.Keys
  {
    hide Raw, Run;
    RunKeepsKeys(env.apply(tx), env.root, Prepared(m, tx));
  }

  /** Funding writes balances only. */
  lemma {:induction false} FundedHasNoCodeHash(root: Root, fakes: seq<(Address, nat)>, f: Flat, a: Address)
    requires Raw(CodeHash(a)) !in f.view
    ensures Raw(CodeHash(a)) !in Funded(root, fakes, f).view
    decreases |fakes|
  {
    hide Raw;
    if fakes != [] {
      var n := |fakes| - 1;
      FundedHasNoCodeHash(root, fakes[..n], f, a);
      RawInjective(CodeHash(a), Balance(fakes[n].0));
    }
  }

  /** Sends only append to the pool. */
  lemma {:induction false} SendsAppend(env: Env, b: Backend, rs: seq<Request>)
    requires forall i :: 0 <= i < |rs| ==> rs[i].Send?
    ensures |ServeAll(env, b, rs).txs| == |b.txs| + |rs|
    ensures |ServeAll(env, b, rs).results| == |b.results| + |rs|
    decreases |rs|
  {
    hide Exec;
    if rs != [] {
      SendsAppend(env, Serve(env, b, rs[0]), rs[1..]);
    }
  }

  /** A pool that is not empty is no replay of a state that was just reset. */
  lemma ResetForgets(env: Env, c: Backend)
    requires c.txs != [] && c.live.flat == Fresh(env, 0).flat
    ensures !IsReplay(env, c)
  {
    hide Exec, Raw, Funded;
    var n := |c.txs| - 1;
    var from := c.txs[n].from;
    ExecAllSnoc(env, false, c.txs, n, Fresh(env, c.since));
    assert c.txs[..n + 1] == c.txs;
    ExecLeavesKey(env, 0, ExecAll(env, false, c.txs[..n], Fresh(env, c.since)).1, c.txs[n]);
    FundedHasNoCodeHash(env.root, env.fakes, BLANK, from);
  }

  /** traceBlocks leaves the live state blank, unfunded and without the pool's effects: that is no replay
      unless there was nothing to be funded or replayed, and until the next reset. */
  lemma BlocksForget(env: Env, b: Backend)
    requires b.live.flat == BLANK
    ensures IsReplay(env, b) <==>
      && b.txs == [] && b.results == [] && env.fakes == []
      && b.live.refund == b.since && b.live.gas == env.gasLimit
  {
    hide Exec, Raw;
    if b.txs != [] {
      var n := |b.txs| - 1;
      var from := b.txs[n].from;
      ExecAllSnoc(env, false, b.txs, n, Fresh(env, b.since));
      assert b.txs[..n + 1] == b.txs;
      ExecLeavesKey(env, 0, ExecAll(env, false, b.txs[..n], Fresh(env, b.since)).1, b.txs[n]);
    } else if env.fakes != [] {
      var n := |env.fakes| - 1;
      assert Raw(Balance(env.fakes[n].0)) in Fresh(env, b.since).flat.view;
    }
  }

  /** Transactions sent between the two halves of ClearTxPool stay in the pool while their effect is
      wiped: the invariant holds afterwards if and only if there were none, and then the halves make
      up the clear request. Being rejected does not save it: even a rejected message has zeroed its
      sender's code hash. */
  lemma ClearIsNotAtomic(env: Env, b: Backend, between: seq<Request>)
    requires forall i :: 0 <= i < |between| ==> between[i].Send?
    ensures var c := StateReset(env, ServeAll(env, PoolEmptied(b), between));
            && (IsReplay(env, c) <==> between == [])
            && (between == [] ==> c == Serve(env, b, ClearTxPool))
  {
    hide Exec, Funded;
    var c := StateReset(env, ServeAll(env, PoolEmptied(b), between));
    SendsAppend(env, PoolEmptied(b), between);
    if between == [] {
      ResetRestores(env, b, ClearTxPool);
    } else {
      ResetForgets(env, c);
    }
  }

  /** ClearTxPool overtakes a running ReExecTxPool: the pool is emptied after ReExecTxPool took its
      transactions and before it files its results, and the state is reset once it is done. */
  function ClearedDuringReExec(env: Env, b: Backend): Backend {
    var r := Serve(env, b, ReExecTxPool);
    StateReset(env, PoolEmptied(r).(results := r.results))
  }

  /** The stray results then stand at the head of the list, and whatever is sent from there on the
      invariant fails, unless the pool had been empty to begin with. */
  lemma ClearDuringReExec(env: Env, b: Backend, sends: seq<Request>)
    requires forall i :: 0 <= i < |sends| ==> sends[i].Send?
    ensures var c := ServeAll(env, ClearedDuringReExec(env, b), sends);
            && (IsReplay(env, c) <==> b.txs == [])
            && |c.results| == |c.txs| + |b.txs|
  {
    hide Exec, Funded;
    var r := ClearedDuringReExec(env, b);
    SendsAppend(env, r, sends);
    if b.txs == [] {
      RunKeepsReplay(env, r, sends);
    }
  }

  // ----- Receipt numbers -----

  /** An accepted transaction's receipt keeps the number it was executed under. */
  lemma {:induction false} ReceiptNumber(env: Env, indexed: bool, txs: seq<Tx>, m: Machine, i: nat)
    requires DistinctHashes(txs) && i < |txs| && !ExecAll(env, indexed, txs, m).0[i].Rejected?
    ensures var f := ExecAll(env, indexed, txs, m).1.flat;
            txs[i].hash in f.receipts && f.receipts[txs[i].hash].txIndex == if indexed then i else 0
    decreases |txs|
  {
    hide Exec, ExecAll, Emitted, OutcomeOf;
    var n := |txs| - 1;
    var m1 := ExecAll(env, indexed, txs[..n], m).1;
    ExecAllSnoc(env, indexed, txs, n, m);
    assert txs[..n + 1] == txs;
    if i == n {
      NewNumber(env, if indexed then n else 0, m1, txs[n]);
    } else {
      ReceiptNumber(env, indexed, txs[..n], m, i);
      ExecLogs(env, if indexed then n else 0, m1, txs[n], txs[i].hash);
    }
  }

  lemma NewNumber(env: Env, index: nat, m: Machine, tx: Tx)
    requires !Exec(env, index, m, tx).0.Rejected?
    ensures var f := Exec(env, index, m, tx).1.flat; tx.hash in f.receipts && f.receipts[tx.hash].txIndex == index
  {
  }

  /** A transaction is number 0 in its receipt when it was sent, and its pool position once the pool
      has been re-executed: the two agree if and only if it was the first one. */
  lemma ReceiptNumbers(env: Env, b: Backend, tx: Tx)
    requires DistinctHashes(b.txs + [tx]) && |b.results| == |b.txs|
    ensures var sent := Serve(env, b, Send(tx));
            var again := Serve(env, sent, ReExecTxPool);
            var i := |b.txs|;
            !sent.results[i].Rejected? && !again.results[i].Rejected? ==>
              && tx.hash in sent.live.flat.receipts && tx.hash in again.live.flat.receipts
              && sent.live.flat.receipts[tx.hash].txIndex == 0
              && again.live.flat.receipts[tx.hash].txIndex == i
              && (sent.live.flat.receipts[tx.hash].txIndex == again.live.flat.receipts[tx.hash].txIndex <==>
                    b.txs == [])
  {
    hide Exec, ExecAll, Fresh;
    var sent := Serve(env, b, Send(tx));
    var again := Serve(env, sent, ReExecTxPool);
    if !sent.results[|b.txs|].Rejected? && !again.results[|b.txs|].Rejected? {
      NewNumber(env, 0, b.live, tx);
      ReceiptNumber(env, true, sent.txs, Fresh(env, sent.live.refund), |b.txs|);
    }
  }
}
