/** WarmUpCache (mferevm/evm.go): any number of workers run messages on clones that share layers,
    step by step in any interleaving. Layers are heap nodes named by their index; node 0 is the root. */
module WarmUp {
  import opened Words
  import opened Keys
  import opened Upstream
  import opened Layers
  import opened Programs
  import opened RootCache
  import P = Batching

  /** `owner` is the worker that allocated the node; the code has no such field. */
  datatype Node = Node(parent: nat, owner: nat, layer: Layer)

  /** A nested call under way: the revision its snapshot returned and what follows it. */
  datatype Frame = Frame(revision: nat, onOutcome: imap<Outcome, Prog>)

  /** `fetching` says that a read missed the root cache and waits for its reply. `alone` is what the
      current message comes to when nobody else runs. */
  datatype Worker = Worker(
    top: nat, prog: Prog, frames: seq<Frame>, refund: nat, gas: nat, fetching: bool, alone: (Outcome, Layered))

  /** `accessed` are the accounts the batching server has been asked for. */
  datatype State = State(nodes: seq<Node>, cache: Pad, accessed: set<Address>, workers: seq<Worker>)

  ghost predicate Linked(nodes: seq<Node>) {
    nodes != [] && forall i :: 1 <= i < |nodes| ==> nodes[i].parent < i
  }

  /** The layers from above the root down to node i. */
  function ChainOf(nodes: seq<Node>, i: nat): seq<Layer>
    requires Linked(nodes) && i < |nodes|
    decreases i
  {
    if i == 0 then [] else ChainOf(nodes, nodes[i].parent) + [nodes[i].layer]
  }

  /** The walk of RevertToSnapshot: up the parents to the layer at a given depth. */
  function Up(nodes: seq<Node>, i: nat, depth: nat): (r: nat)
    requires Linked(nodes) && i < |nodes| && depth <= |ChainOf(nodes, i)|
    ensures r <= i && |ChainOf(nodes, r)| == depth && ChainOf(nodes, r) == ChainOf(nodes, i)[..depth]
    decreases i
  {
    if |ChainOf(nodes, i)| == depth then i
    else
      assert ChainOf(nodes, i)[..|ChainOf(nodes, i)| - 1] == ChainOf(nodes, nodes[i].parent);
      Up(nodes, nodes[i].parent, depth)
  }

  /** The worker's situation as a value. */
  datatype Conf = Conf(prog: Prog, frames: seq<Frame>, m: Layered)

  function ConfOf(s: State, w: nat): Conf
    requires Linked(s.nodes) && w < |s.workers| && s.workers[w].top < |s.nodes|
  {
    var x := s.workers[w];
    Conf(x.prog, x.frames, Layered(ChainOf(s.nodes, x.top), x.refund, x.gas))
  }

  function Cut(ls: seq<Layer>, depth: int): seq<Layer> {
    if 1 <= depth <= |ls| then ls[..depth] else ls
  }

  function Branch<K>(c: imap<K, Prog>, k: K): Prog {
    if k in c then c[k] else Done(STUCK)
  }

  /** One move of a worker, on values; reads are answered by the root view. */
  function Move(root: Root, c: Conf): Conf
    requires c.m.layers != []
  {
    var ls := c.m.layers;
    match c.prog
    case Done(out) =>
      if c.frames == [] then c
      else
        var f := c.frames[|c.frames| - 1];
        var ls' := if out.status.Ok? then ls else Cut(ls, f.revision - 1);
        Conf(Branch(f.onOutcome, out), c.frames[..|c.frames| - 1], c.m.(layers := ls'))
    case Load(k, t) => c.(prog := Branch(t, Walk(root, ls, k)))
    case Store(k, v, next) => c.(prog := next, m := c.m.(layers := OnTop(ls, PutLayer(Top(ls), Raw(k), v))))
    case AskSuicided(a, yes, no) => c.(prog := if Suicided(Top(ls).pad, a) then yes else no)
    case Emit(log, next) => c.(prog := next, m := c.m.(layers := OnTop(ls, LogLayer(Top(ls), log))))
    case Refund(d, next) => c.(prog := next, m := c.m.(refund := Refunded(c.m.refund, d)))
    case ReadRefund(t) => c.(prog := Branch(t, c.m.refund))
    case BuyGas(g, ok, short) =>
      if g <= c.m.gas then c.(prog := ok, m := c.m.(gas := c.m.gas - g)) else c.(prog := short)
    case ReturnGas(g, next) => c.(prog := next, m := c.m.(gas := c.m.gas + g))
    case Call(body, t) =>
      Conf(body, c.frames + [Frame(|ls| + 1, t)], c.m.(layers := Pushed(ls)))
  }

  /** What a situation comes to: the program under way, then every pending call. */
  function Resume(root: Root, c: Conf): (Outcome, Layered)
    requires c.m.layers != []
    decreases |c.frames|
  {
    var (out, m) := RunLayered(c.prog, root, c.m);
    if c.frames == [] then (out, m)
    else
      var f := c.frames[|c.frames| - 1];
      var m' := if out.status.Ok? then m else m.(layers := Cut(m.layers, f.revision - 1));
      Resume(root, Conf(Branch(f.onOutcome, out), c.frames[..|c.frames| - 1], m'))
  }

  /** A call runs its body on a pushed layer and goes on in the branch of its outcome. */
  lemma CallRuns(body: Prog, t: imap<Outcome, Prog>, root: Root, m: Layered)
    requires m.layers != []
    ensures var (out, m1) := RunLayered(body, root, m.(layers := Pushed(m.layers)));
            var m2 := if out.status.Ok? then m1 else m1.(layers := Cut(m1.layers, |m.layers|));
            m2.layers != [] && RunLayered(Call(body, t), root, m) == RunLayered(Branch(t, out), root, m2)
  {
    hide Raw, Walk, PutLayer, LogLayer, Suicided, Refunded;
  }

  lemma CallResumes(root: Root, c: Conf)
    requires c.m.layers != [] && c.prog.Call?
    ensures Resume(root, Move(root, c)) == Resume(root, c)
  {
    hide RunLayered, Branch;
    var d := Move(root, c);
    var (out, m1) := RunLayered(d.prog, root, d.m);
    var m2 := if out.status.Ok? then m1 else m1.(layers := Cut(m1.layers, |c.m.layers|));
    CallRuns(c.prog.body, c.prog.onOutcome, root, c.m);
    var e := Conf(Branch(c.prog.onOutcome, out), c.frames, m2);
    assert d.frames[..|c.frames|] == c.frames;
    assert Resume(root, d) == Resume(root, e);
    SameResume(root, c, e);
  }

  lemma ReturnResumes(root: Root, c: Conf)
    requires c.m.layers != [] && c.prog.Done?
    ensures Resume(root, Move(root, c)) == Resume(root, c)
  {
    hide Raw, Walk, PutLayer, LogLayer, Suicided, Refunded;
    assert RunLayered(c.prog, root, c.m) == (c.prog.out, c.m);
  }

  /** A move inside a program leaves the frames alone. */
  lemma InnerResumes(root: Root, c: Conf)
    requires c.m.layers != [] && !c.prog.Call? && !c.prog.Done?
    ensures Resume(root, Move(root, c)) == Resume(root, c)
  {
    hide Raw, Walk, PutLayer, LogLayer, Suicided, Refunded, Resume;
    var d := Move(root, c);
    assert d.frames == c.frames;
    assert RunLayered(d.prog, root, d.m) == RunLayered(c.prog, root, c.m);
    SameResume(root, c, d);
  }

  lemma SameResume(root: Root, c: Conf, d: Conf)
    requires c.m.layers != [] && d.m.layers != [] && d.frames == c.frames
    requires RunLayered(d.prog, root, d.m) == RunLayered(c.prog, root, c.m)
    ensures Resume(root, d) == Resume(root, c)
  {
    hide RunLayered;
  }

  /** A move does not change what the situation comes to. */
  lemma MoveResumes(root: Root, c: Conf)
    requires c.m.layers != []
    ensures Resume(root, Move(root, c)) == Resume(root, c)
  {
    hide Resume, Move;
    if c.prog.Call? {
      CallResumes(root, c);
    } else if c.prog.Done? {
      ReturnResumes(root, c);
    } else {
      InnerResumes(root, c);
    }
  }

  // ----- Steps on the shared heap -----

  datatype Step =
    | Spawn
    | NextTx(w: nat, hash: TxHash, prog: Prog)
    | Act(w: nat)
    | Miss(w: nat)
    | Fill(w: nat)

  /** The nearest layer's entry, if any layer above the root holds the key. */
  function Held(ls: seq<Layer>, k: ReadKey): Option<Bytes> {
    if ls == [] then None
    else if Raw(k) in Top(ls).pad then Some(Top(ls).pad[Raw(k)])
    else Held(ls[..|ls| - 1], k)
  }

  lemma {:induction false} HeldIsWalk(root: Root, ls: seq<Layer>, k: ReadKey)
    ensures Walk(root, ls, k) == if Held(ls, k).Some? then Held(ls, k).value else root(k)
  {
    if ls != [] {
      HeldIsWalk(root, ls[..|ls| - 1], k);
    }
  }

  ghost predicate Sane(s: State) {
    Linked(s.nodes) && forall w :: 0 <= w < |s.workers| ==> 1 <= s.workers[w].top < |s.nodes|
  }

  predicate Idle(x: Worker) {
    x.prog.Done? && x.frames == []
  }

  ghost predicate Enabled(s: State, step: Step) {
    Sane(s) &&
    match step
    case Spawn => true
    case NextTx(w, _, _) => w < |s.workers| && Idle(s.workers[w])
    case Act(w) =>
      w < |s.workers| && !s.workers[w].fetching && !Idle(s.workers[w]) &&
      (s.workers[w].prog.Load? ==>
         Held(ChainOf(s.nodes, s.workers[w].top), s.workers[w].prog.key).Some? || Raw(s.workers[w].prog.key) in s.cache)
    case Miss(w) =>
      w < |s.workers| && !s.workers[w].fetching && s.workers[w].prog.Load? &&
      Held(ChainOf(s.nodes, s.workers[w].top), s.workers[w].prog.key).None? && Raw(s.workers[w].prog.key) !in s.cache
    case Fill(w) => w < |s.workers| && s.workers[w].fetching && s.workers[w].prog.Load?
  }

  function WithWorker(s: State, w: nat, x: Worker): State
    requires w < |s.workers|
  {
    s.(workers := s.workers[w := x])
  }

  /** A write to the worker's current layer, in place on the shared heap. */
  function WithTop(s: State, w: nat, next: Prog, l: Layer): State
    requires w < |s.workers| && s.workers[w].top < |s.nodes|
  {
    var x := s.workers[w];
    WithWorker(s, w, x.(prog := next)).(nodes := s.nodes[x.top := s.nodes[x.top].(layer := l)])
  }

  /** One move of worker w on the heap. */
  function Acted(s: State, w: nat): State
    requires Enabled(s, Act(w))
  {
    var x := s.workers[w];
    var top := s.nodes[x.top].layer;
    var ls := ChainOf(s.nodes, x.top);
    match x.prog
    case Done(out) =>
      var f := x.frames[|x.frames| - 1];
      var stays := out.status.Ok? || !(1 <= f.revision - 1 <= |ls|);
      var top' := if stays then x.top else Up(s.nodes, x.top, f.revision - 1);
      WithWorker(s, w, x.(top := top', prog := Branch(f.onOutcome, out), frames := x.frames[..|x.frames| - 1]))
    case Load(k, t) =>
      var v := if Held(ls, k).Some? then Held(ls, k).value else s.cache[Raw(k)];
      WithWorker(s, w, x.(prog := Branch(t, v)))
    case Store(k, v, next) => WithTop(s, w, next, PutLayer(top, Raw(k), v))
    case AskSuicided(a, yes, no) => WithWorker(s, w, x.(prog := if Suicided(top.pad, a) then yes else no))
    case Emit(log, next) => WithTop(s, w, next, LogLayer(top, log))
    case Refund(d, next) => WithWorker(s, w, x.(prog := next, refund := Refunded(x.refund, d)))
    case ReadRefund(t) => WithWorker(s, w, x.(prog := Branch(t, x.refund)))
    case BuyGas(g, ok, short) =>
      WithWorker(s, w, if g <= x.gas then x.(prog := ok, gas := x.gas - g) else x.(prog := short))
    case ReturnGas(g, next) => WithWorker(s, w, x.(prog := next, gas := x.gas + g))
    case Call(body, t) =>
      WithWorker(s, w, x.(top := |s.nodes|, prog := body, frames := x.frames + [Frame(|ls| + 1, t)])).(
        nodes := s.nodes + [Node(x.top, w, Derived(top.cur))])
  }

  function Next(chain: Chain, bn: nat, base: nat, s: State, step: Step): State
    requires Enabled(s, step) && base < |s.nodes|
  {
    match step
    case Spawn =>
      var clone := Node(base, |s.workers|, Derived(s.nodes[base].layer.cur));
      State(s.nodes + [clone], s.cache, s.accessed,
        s.workers + [Worker(|s.nodes|, Done(STUCK), [], 0, 0, false,
          (STUCK, Layered(ChainOf(s.nodes, base) + [clone.layer], 0, 0)))])
    case NextTx(w, hash, prog) =>
      var x := s.workers[w];
      var l := s.nodes[x.top].layer.(cur := hash);
      var ls := OnTop(ChainOf(s.nodes, x.top), l);
      var alone := RunLayered(prog, RootAt(chain, bn), Layered(ls, x.refund, TWO_64 - 1));
      WithWorker(s, w, x.(prog := prog, gas := TWO_64 - 1, fetching := false, alone := alone)).(
        nodes := s.nodes[x.top := s.nodes[x.top].(layer := l)])
    case Act(w) => Acted(s, w)
    case Miss(w) => WithWorker(s, w, s.workers[w].(fetching := true))
    case Fill(w) =>
      var x := s.workers[w];
      var k := x.prog.key;
      var filled := P.FillIn(s.cache, chain, k, P.Served(chain, bn, P.RequestOf(k)));
      var v := if Raw(k) in filled then filled[Raw(k)] else [];
      WithWorker(s, w, x.(fetching := false, prog := Branch(x.prog.onValue, v))).(
        cache := filled, accessed := if k.Slot? then s.accessed else s.accessed + {k.account})
  }

  // ----- Chains under writes and allocations -----

  lemma {:induction false} ChainAppend(nodes: seq<Node>, n: Node, i: nat)
    requires Linked(nodes) && n.parent < |nodes| && i < |nodes|
    ensures Linked(nodes + [n]) && ChainOf(nodes + [n], i) == ChainOf(nodes, i)
    decreases i
  {
    if i != 0 {
      ChainAppend(nodes, n, nodes[i].parent);
    }
  }

  function Written(nodes: seq<Node>, t: nat, l: Layer): seq<Node>
    requires t < |nodes|
  {
    nodes[t := nodes[t].(layer := l)]
  }

  lemma {:induction false} ChainBelow(nodes: seq<Node>, t: nat, l: Layer, i: nat)
    requires Linked(nodes) && i < t < |nodes|
    ensures Linked(Written(nodes, t, l)) && ChainOf(Written(nodes, t, l), i) == ChainOf(nodes, i)
    decreases i
  {
    if i != 0 {
      ChainBelow(nodes, t, l, nodes[i].parent);
    }
  }

  lemma ChainTop(nodes: seq<Node>, t: nat, l: Layer)
    requires Linked(nodes) && 1 <= t < |nodes|
    ensures Linked(Written(nodes, t, l))
    ensures ChainOf(nodes, t) != [] && Top(ChainOf(nodes, t)) == nodes[t].layer
    ensures ChainOf(Written(nodes, t, l), t) == OnTop(ChainOf(nodes, t), l)
  {
    ChainBelow(nodes, t, l, nodes[t].parent);
  }

  /** Nodes allocated since the start hang under the base or under a node of the same owner. */
  ghost predicate Fenced(nodes: seq<Node>, base: nat, first: nat) {
    base < first <= |nodes| &&
    forall i :: first <= i < |nodes| ==>
      nodes[i].parent == base ||
      (first <= nodes[i].parent < i && nodes[nodes[i].parent].owner == nodes[i].owner)
  }

  /** A write to one owner's node shows in no chain of another owner. */
  lemma {:induction false} ChainOther(nodes: seq<Node>, base: nat, first: nat, t: nat, l: Layer, i: nat)
    requires Linked(nodes) && Fenced(nodes, base, first)
    requires first <= t < |nodes| && first <= i < |nodes| && nodes[i].owner != nodes[t].owner
    ensures Linked(Written(nodes, t, l)) && ChainOf(Written(nodes, t, l), i) == ChainOf(nodes, i)
    decreases i
  {
    if nodes[i].parent == base {
      ChainBelow(nodes, t, l, base);
    } else {
      ChainOther(nodes, base, first, t, l, nodes[i].parent);
    }
  }

  /** Walking up from an owned node to a depth above the base stays on owned nodes. */
  lemma {:induction false} UpOwned(nodes: seq<Node>, base: nat, first: nat, i: nat, depth: nat)
    requires Linked(nodes) && Fenced(nodes, base, first) && first <= i < |nodes|
    requires |ChainOf(nodes, base)| < depth <= |ChainOf(nodes, i)|
    ensures first <= Up(nodes, i, depth) < |nodes| && nodes[Up(nodes, i, depth)].owner == nodes[i].owner
    decreases i
  {
    if |ChainOf(nodes, i)| != depth {
      UpOwned(nodes, base, first, nodes[i].parent, depth);
    }
  }

  // ----- The invariant -----

  /** The nodes that were there at the start are as they were; the links are sound. */
  ghost predicate Frozen(base: nat, origin: seq<Node>, s: State) {
    && Linked(s.nodes) && Linked(origin) && Fenced(s.nodes, base, |origin|)
    && s.nodes[..|origin|] == origin
  }

  ghost predicate Owns(base: nat, origin: seq<Node>, s: State, w: nat)
    requires Frozen(base, origin, s) && w < |s.workers|
  {
    var x := s.workers[w];
    && |origin| <= x.top < |s.nodes| && s.nodes[x.top].owner == w
    && forall i :: 0 <= i < |x.frames| ==> x.frames[i].revision - 1 > |ChainOf(s.nodes, base)|
  }

  /** The worker's message will come to what it comes to alone, and a fetch under way is for a key
      that none of its layers holds. */
  ghost predicate OnTrack(root: Root, s: State, w: nat)
    requires Linked(s.nodes) && w < |s.workers| && 1 <= s.workers[w].top < |s.nodes|
  {
    var x := s.workers[w];
    && ChainOf(s.nodes, x.top) != []
    && Resume(root, ConfOf(s, w)) == x.alone
    && (x.fetching ==> x.prog.Load? && Held(ChainOf(s.nodes, x.top), x.prog.key).None?)
  }

  ghost predicate Fine(root: Root, base: nat, origin: seq<Node>, s: State, w: nat)
    requires Frozen(base, origin, s) && w < |s.workers|
  {
    Owns(base, origin, s, w) && OnTrack(root, s, w)
  }

  ghost predicate Inv(chain: Chain, bn: nat, base: nat, origin: seq<Node>, s: State) {
    && Frozen(base, origin, s)
    && (forall w :: 0 <= w < |s.workers| ==> Fine(RootAt(chain, bn), base, origin, s, w))
    && (forall k: ReadKey :: Agrees(s.cache, chain, bn, k))
    && Tracks(s.cache, s.accessed)
  }

  /** The base's chain is read from frozen nodes. */
  lemma {:induction false} FrozenChain(base: nat, origin: seq<Node>, s: State, i: nat)
    requires Frozen(base, origin, s) && i < |origin|
    ensures ChainOf(s.nodes, i) == ChainOf(origin, i)
    decreases i
  {
    assert s.nodes[i] == origin[i];
    if i != 0 {
      FrozenChain(base, origin, s, origin[i].parent);
    }
  }

  // ----- Steps keep it -----

  /** A step that leaves a worker's record, its chain and the base's chain leaves the worker fine. */
  lemma Bystander(root: Root, base: nat, origin: seq<Node>, s: State, s': State, v: nat)
    requires Frozen(base, origin, s) && Frozen(base, origin, s')
    requires v < |s.workers| && Fine(root, base, origin, s, v)
    requires v < |s'.workers| && s'.workers[v] == s.workers[v]
    requires |s.nodes| <= |s'.nodes| && s'.nodes[s.workers[v].top].owner == v
    requires ChainOf(s'.nodes, s.workers[v].top) == ChainOf(s.nodes, s.workers[v].top)
    ensures Fine(root, base, origin, s', v)
  {
    hide Resume, Held, ChainOf;
    FrozenChain(base, origin, s, base);
    FrozenChain(base, origin, s', base);
    assert ConfOf(s', v) == ConfOf(s, v);
  }

  /** A worker that made one move of its own is fine if it still owns what it stands on. */
  lemma Mover(root: Root, base: nat, origin: seq<Node>, s: State, s': State, w: nat)
    requires Frozen(base, origin, s) && Frozen(base, origin, s')
    requires w < |s.workers| && Fine(root, base, origin, s, w)
    requires w < |s'.workers| && Owns(base, origin, s', w)
    requires ConfOf(s', w) == Move(root, ConfOf(s, w)) && s'.workers[w].alone == s.workers[w].alone
    requires !s'.workers[w].fetching
    ensures Fine(root, base, origin, s', w)
  {
    hide Resume, Held, ChainOf, Move;
    MoveResumes(root, ConfOf(s, w));
    MoveNonEmpty(root, ConfOf(s, w));
  }

  lemma MoveNonEmpty(root: Root, c: Conf)
    requires c.m.layers != []
    ensures Move(root, c).m.layers != []
  {
  }

  /** A write to the top node of worker w. */
  lemma WriteKeeps(root: Root, base: nat, origin: seq<Node>, s: State, s': State, w: nat, l: Layer)
    requires Frozen(base, origin, s) && w < |s.workers| && Fine(root, base, origin, s, w)
    requires s'.nodes == Written(s.nodes, s.workers[w].top, l)
    requires |s'.workers| == |s.workers| && s'.workers[w].top == s.workers[w].top
    requires s'.workers[w].frames == s.workers[w].frames
    requires forall v :: 0 <= v < |s.workers| && v != w ==> s'.workers[v] == s.workers[v]
    requires forall v :: 0 <= v < |s.workers| && v != w ==> Fine(root, base, origin, s, v)
    ensures Frozen(base, origin, s') && Owns(base, origin, s', w)
    ensures ChainOf(s'.nodes, s.workers[w].top) == OnTop(ChainOf(s.nodes, s.workers[w].top), l)
    ensures ChainOf(s.nodes, s.workers[w].top) != [] &&
            Top(ChainOf(s.nodes, s.workers[w].top)) == s.nodes[s.workers[w].top].layer
    ensures forall v :: 0 <= v < |s.workers| && v != w ==> Fine(root, base, origin, s', v)
  {
    hide Resume, Held, ChainOf, OnTrack;
    var t := s.workers[w].top;
    ChainTop(s.nodes, t, l);
    ChainBelow(s.nodes, t, l, base);
    assert s'.nodes[..|origin|] == s.nodes[..|origin|];
    forall v | 0 <= v < |s.workers| && v != w ensures Fine(root, base, origin, s', v) {
      assert Fine(root, base, origin, s, v);
      ChainOther(s.nodes, base, |origin|, t, l, s.workers[v].top);
      Bystander(root, base, origin, s, s', v);
    }
  }

  /** A new node for worker w under a node it owns or under the base. */
  lemma AllocKeeps(root: Root, base: nat, origin: seq<Node>, s: State, s': State, w: nat, n: Node)
    requires Frozen(base, origin, s)
    requires n.owner == w && (n.parent == base || (|origin| <= n.parent < |s.nodes| && s.nodes[n.parent].owner == w))
    requires s'.nodes == s.nodes + [n] && |s.workers| <= |s'.workers|
    requires forall v :: 0 <= v < |s.workers| && v != w ==> s'.workers[v] == s.workers[v]
    requires forall v :: 0 <= v < |s.workers| ==> Fine(root, base, origin, s, v)
    ensures Frozen(base, origin, s')
    ensures ChainOf(s'.nodes, |s.nodes|) == ChainOf(s.nodes, n.parent) + [n.layer]
    ensures ChainOf(s'.nodes, base) == ChainOf(s.nodes, base)
    ensures forall v :: 0 <= v < |s.workers| && v != w ==> Fine(root, base, origin, s', v)
  {
    hide Resume, Held, OnTrack;
    ChainAppend(s.nodes, n, n.parent);
    ChainAppend(s.nodes, n, base);
    assert s'.nodes[..|origin|] == s.nodes[..|origin|];
    forall v | 0 <= v < |s.workers| && v != w ensures Fine(root, base, origin, s', v) {
      assert Fine(root, base, origin, s, v);
      ChainAppend(s.nodes, n, s.workers[v].top);
      Bystander(root, base, origin, s, s', v);
    }
  }

  /** A step that touches no node and only worker w's record. */
  lemma RecordKeeps(root: Root, base: nat, origin: seq<Node>, s: State, s': State, w: nat)
    requires Frozen(base, origin, s) && s'.nodes == s.nodes
    requires |s'.workers| == |s.workers|
    requires forall v :: 0 <= v < |s.workers| && v != w ==> s'.workers[v] == s.workers[v]
    requires forall v :: 0 <= v < |s.workers| ==> Fine(root, base, origin, s, v)
    ensures Frozen(base, origin, s')
    ensures forall v :: 0 <= v < |s.workers| && v != w ==> Fine(root, base, origin, s', v)
  {
    hide Resume, Held, OnTrack, ChainOf;
    forall v | 0 <= v < |s.workers| && v != w ensures Fine(root, base, origin, s', v) {
      assert Fine(root, base, origin, s, v);
      Bystander(root, base, origin, s, s', v);
    }
  }

  /** A move on the heap is the move on values, with the cache standing in for the root view. */
  lemma ActWrites(root: Root, base: nat, origin: seq<Node>, s: State, w: nat)
    requires Enabled(s, Act(w)) && Frozen(base, origin, s)
    requires forall v :: 0 <= v < |s.workers| ==> Fine(root, base, origin, s, v)
    requires s.workers[w].prog.Store? || s.workers[w].prog.Emit?
    ensures Frozen(base, origin, Acted(s, w))
    ensures forall v :: 0 <= v < |s.workers| ==> Fine(root, base, origin, Acted(s, w), v)
  {
    hide Resume, Held, ChainOf, OnTrack, Raw, PutLayer, LogLayer, Linked;
    var s' := Acted(s, w);
    var x := s.workers[w];
    assert Fine(root, base, origin, s, w);
    var l := if x.prog.Store? then PutLayer(s.nodes[x.top].layer, Raw(x.prog.slot), x.prog.val)
             else LogLayer(s.nodes[x.top].layer, x.prog.log);
    WriteKeeps(root, base, origin, s, s', w, l);
    assert ConfOf(s', w) == Move(root, ConfOf(s, w));
    Mover(root, base, origin, s, s', w);
  }

  lemma ActCalls(root: Root, base: nat, origin: seq<Node>, s: State, w: nat)
    requires Enabled(s, Act(w)) && Frozen(base, origin, s)
    requires forall v :: 0 <= v < |s.workers| ==> Fine(root, base, origin, s, v)
    requires s.workers[w].prog.Call?
    ensures Frozen(base, origin, Acted(s, w))
    ensures forall v :: 0 <= v < |s.workers| ==> Fine(root, base, origin, Acted(s, w), v)
  {
    hide Resume, Held, Raw, Linked, OnTrack, ChainOf;
    var s' := Acted(s, w);
    var x := s.workers[w];
    var top := x.top;
    assert Fine(root, base, origin, s, w);
    AllocKeeps(root, base, origin, s, s', w, Node(top, w, Derived(s.nodes[top].layer.cur)));
    TopLayer(s.nodes, top);
    OwnedDepth(s.nodes, base, |origin|, top);
    assert ConfOf(s', w) == Move(root, ConfOf(s, w));
    Mover(root, base, origin, s, s', w);
  }

  lemma TopLayer(nodes: seq<Node>, i: nat)
    requires Linked(nodes) && 1 <= i < |nodes|
    ensures ChainOf(nodes, i) != [] && Top(ChainOf(nodes, i)) == nodes[i].layer
  {
  }

  /** An owned node lies deeper than the base. */
  lemma {:induction false} OwnedDepth(nodes: seq<Node>, base: nat, first: nat, i: nat)
    requires Linked(nodes) && Fenced(nodes, base, first) && first <= i < |nodes|
    ensures |ChainOf(nodes, i)| > |ChainOf(nodes, base)|
    decreases i
  {
    if nodes[i].parent != base {
      OwnedDepth(nodes, base, first, nodes[i].parent);
    }
  }

  lemma ActReturns(root: Root, base: nat, origin: seq<Node>, s: State, w: nat)
    requires Enabled(s, Act(w)) && Frozen(base, origin, s)
    requires forall v :: 0 <= v < |s.workers| ==> Fine(root, base, origin, s, v)
    requires s.workers[w].prog.Done?
    ensures Frozen(base, origin, Acted(s, w))
    ensures forall v :: 0 <= v < |s.workers| ==> Fine(root, base, origin, Acted(s, w), v)
  {
    hide Resume, Held, Raw, Linked, OnTrack, ChainOf;
    var s' := Acted(s, w);
    var x := s.workers[w];
    assert Fine(root, base, origin, s, w);
    var f := x.frames[|x.frames| - 1];
    RecordKeeps(root, base, origin, s, s', w);
    TopLayer(s.nodes, x.top);
    if !x.prog.out.status.Ok? && 1 <= f.revision - 1 <= |ChainOf(s.nodes, x.top)| {
      UpOwned(s.nodes, base, |origin|, x.top, f.revision - 1);
    }
    assert ConfOf(s', w) == Move(root, ConfOf(s, w));
    Mover(root, base, origin, s, s', w);
  }

  /** The remaining moves touch only the worker's record. */
  lemma ActLocally(chain: Chain, bn: nat, base: nat, origin: seq<Node>, s: State, w: nat)
    requires Enabled(s, Act(w)) && Inv(chain, bn, base, origin, s)
    requires var p := s.workers[w].prog; !p.Store? && !p.Emit? && !p.Call? && !p.Done?
    ensures Frozen(base, origin, Acted(s, w))
    ensures forall v :: 0 <= v < |s.workers| ==> Fine(RootAt(chain, bn), base, origin, Acted(s, w), v)
  {
    hide Resume, Raw, Linked, OnTrack, ChainOf, Held, Refunded, Suicided;
    var root := RootAt(chain, bn);
    var s' := Acted(s, w);
    var x := s.workers[w];
    assert Fine(root, base, origin, s, w);
    RecordKeeps(root, base, origin, s, s', w);
    TopLayer(s.nodes, x.top);
    if x.prog.Load? {
      HeldIsWalk(root, ChainOf(s.nodes, x.top), x.prog.key);
      assert Agrees(s.cache, chain, bn, x.prog.key);
    }
    assert ConfOf(s', w) == Move(root, ConfOf(s, w));
    Mover(root, base, origin, s, s', w);
  }

  lemma SpawnKeeps(chain: Chain, bn: nat, base: nat, origin: seq<Node>, s: State)
    requires Enabled(s, Spawn) && Inv(chain, bn, base, origin, s)
    ensures Inv(chain, bn, base, origin, Next(chain, bn, base, s, Spawn))
  {
    hide Held, Raw, Linked, ChainOf, Agrees, Tracks;
    var root := RootAt(chain, bn);
    var s' := Next(chain, bn, base, s, Spawn);
    var n := |s.workers|;
    AllocKeeps(root, base, origin, s, s', n, Node(base, n, Derived(s.nodes[base].layer.cur)));
    assert s'.workers[n].frames == [];
    assert Fine(root, base, origin, s', n);
  }

  lemma NextTxKeeps(chain: Chain, bn: nat, base: nat, origin: seq<Node>, s: State, w: nat, hash: TxHash, prog: Prog)
    requires Enabled(s, NextTx(w, hash, prog)) && Inv(chain, bn, base, origin, s)
    ensures Inv(chain, bn, base, origin, Next(chain, bn, base, s, NextTx(w, hash, prog)))
  {
    hide Held, Raw, Linked, ChainOf, Agrees, Tracks, RunLayered;
    var root := RootAt(chain, bn);
    var s' := Next(chain, bn, base, s, NextTx(w, hash, prog));
    var x := s.workers[w];
    assert Fine(root, base, origin, s, w);
    WriteKeeps(root, base, origin, s, s', w, s.nodes[x.top].layer.(cur := hash));
    assert s'.workers[w].frames == [];
    assert Fine(root, base, origin, s', w);
  }

  lemma FetchKeeps(chain: Chain, bn: nat, base: nat, origin: seq<Node>, s: State, step: Step)
    requires Enabled(s, step) && Inv(chain, bn, base, origin, s) && (step.Miss? || step.Fill?)
    ensures Inv(chain, bn, base, origin, Next(chain, bn, base, s, step))
  {
    hide Raw, Linked, ChainOf, Agrees, Tracks, Resume, Held, P.FillIn, Fetched;
    var root := RootAt(chain, bn);
    var s' := Next(chain, bn, base, s, step);
    var w := step.w;
    var x := s.workers[w];
    var k := x.prog.key;
    assert Fine(root, base, origin, s, w);
    RecordKeeps(root, base, origin, s, s', w);
    if step.Miss? {
      assert ConfOf(s', w) == ConfOf(s, w);
    } else {
      HeldIsWalk(root, ChainOf(s.nodes, x.top), k);
      forall j: ReadKey ensures Agrees(s'.cache, chain, bn, j) {
        assert Agrees(s.cache, chain, bn, j);
        P.FillInKeeps(s.cache, chain, bn, k, j);
      }
      FillTracked(chain, bn, s.cache, s.accessed, k);
      P.FillInKeeps(s.cache, chain, bn, k, k);
      Cached(s'.cache, chain, bn, k);
      assert ConfOf(s', w) == Move(root, ConfOf(s, w));
      Mover(root, base, origin, s, s', w);
    }
  }

  lemma FillTracked(chain: Chain, bn: nat, pad: Pad, accessed: set<Address>, k: ReadKey)
    requires Tracks(pad, accessed)
    ensures Tracks(P.FillIn(pad, chain, k, P.Served(chain, bn, P.RequestOf(k))),
                   if k.Slot? then accessed else accessed + {k.account})
  {
    hide Raw, Tracks, P.FillIn;
    TracksMore(pad, accessed, accessed + {k.account});
    P.FillTracks(pad, chain, k, P.Served(chain, bn, P.RequestOf(k)),
      if k.Slot? then accessed else accessed + {k.account});
  }

  lemma Cached(pad: Pad, chain: Chain, bn: nat, k: ReadKey)
    requires Agrees(pad, chain, bn, k) && Raw(k) in pad
    ensures pad[Raw(k)] == Fetched(chain, bn, k)
  {
  }

  lemma StepKeeps(chain: Chain, bn: nat, base: nat, origin: seq<Node>, s: State, step: Step)
    requires Enabled(s, step) && Inv(chain, bn, base, origin, s)
    ensures Inv(chain, bn, base, origin, Next(chain, bn, base, s, step))
  {
    hide Fine, Enabled, Raw, Frozen, Held, ChainOf, Agrees, Tracks;
    match step
    case Spawn => SpawnKeeps(chain, bn, base, origin, s);
    case NextTx(w, hash, prog) => NextTxKeeps(chain, bn, base, origin, s, w, hash, prog);
    case Miss(_) => FetchKeeps(chain, bn, base, origin, s, step);
    case Fill(_) => FetchKeeps(chain, bn, base, origin, s, step);
    case Act(w) => ActKeeps(chain, bn, base, origin, s, w);
  }

  lemma ActKeeps(chain: Chain, bn: nat, base: nat, origin: seq<Node>, s: State, w: nat)
    requires Enabled(s, Act(w)) && Inv(chain, bn, base, origin, s)
    ensures Inv(chain, bn, base, origin, Acted(s, w))
  {
    hide Fine, Raw, Frozen, Held, ChainOf, Agrees, Tracks;
    var p := s.workers[w].prog;
    ActKeepsRest(s, w);
    if p.Store? || p.Emit? {
      ActWrites(RootAt(chain, bn), base, origin, s, w);
    } else if p.Call? {
      ActCalls(RootAt(chain, bn), base, origin, s, w);
    } else if p.Done? {
      ActReturns(RootAt(chain, bn), base, origin, s, w);
    } else {
      ActLocally(chain, bn, base, origin, s, w);
    }
  }

  lemma ActKeepsRest(s: State, w: nat)
    requires Enabled(s, Act(w))
    ensures Acted(s, w).cache == s.cache && Acted(s, w).accessed == s.accessed && |Acted(s, w).workers| == |s.workers|
  {
  }

  // ----- Runs -----

  ghost predicate IsRun(chain: Chain, bn: nat, base: nat, s: State, steps: seq<Step>)
    decreases |steps|
  {
    steps == [] ||
    (base < |s.nodes| && Enabled(s, steps[0]) && IsRun(chain, bn, base, Next(chain, bn, base, s, steps[0]), steps[1..]))
  }

  ghost function After(chain: Chain, bn: nat, base: nat, s: State, steps: seq<Step>): State
    requires IsRun(chain, bn, base, s, steps)
    decreases |steps|
  {
    if steps == [] then s else After(chain, bn, base, Next(chain, bn, base, s, steps[0]), steps[1..])
  }

  /** WarmUpCache is called on a sound heap with a coherent root cache; no worker runs yet. */
  ghost predicate Begins(chain: Chain, bn: nat, base: nat, s: State) {
    && Linked(s.nodes) && base < |s.nodes| && s.workers == []
    && Tracks(s.cache, s.accessed) && forall k: ReadKey :: Agrees(s.cache, chain, bn, k)
  }

  lemma {:induction false} RunKeeps(chain: Chain, bn: nat, base: nat, origin: seq<Node>, s: State, steps: seq<Step>)
    requires Inv(chain, bn, base, origin, s) && IsRun(chain, bn, base, s, steps)
    ensures Inv(chain, bn, base, origin, After(chain, bn, base, s, steps))
    ensures s.cache.Keys <= After(chain, bn, base, s, steps).cache.Keys
    decreases |steps|
  {
    hide Inv, Next, Enabled;
    if steps != [] {
      StepKeeps(chain, bn, base, origin, s, steps[0]);
      CacheGrows(chain, bn, base, s, steps[0]);
      RunKeeps(chain, bn, base, origin, Next(chain, bn, base, s, steps[0]), steps[1..]);
    }
  }

  lemma CacheGrows(chain: Chain, bn: nat, base: nat, s: State, step: Step)
    requires base < |s.nodes| && Enabled(s, step)
    ensures s.cache.Keys <= Next(chain, bn, base, s, step).cache.Keys
  {
    hide Raw, ChainOf, Held, RunLayered, P.Served;
  }

  /** What `get` answers on layer i: the nearest layer's entry, else the root cache's, else a fetch. */
  ghost function Answer(chain: Chain, bn: nat, s: State, i: nat, k: ReadKey): Bytes
    requires Linked(s.nodes) && i < |s.nodes|
  {
    var held := Held(ChainOf(s.nodes, i), k);
    if held.Some? then held.value else if Raw(k) in s.cache then s.cache[Raw(k)] else Fetched(chain, bn, k)
  }

  /** Non-interference: whatever the workers run and however their moves interleave, no layer that
      was there before changes, no query on one changes its answer, and the root cache only gains
      entries, all of them equal to upstream. */
  lemma NonInterference(chain: Chain, bn: nat, base: nat, s: State, steps: seq<Step>, i: nat)
    requires Begins(chain, bn, base, s) && IsRun(chain, bn, base, s, steps) && i < |s.nodes|
    ensures var s' := After(chain, bn, base, s, steps);
            Linked(s'.nodes) && i < |s'.nodes| &&
            ChainOf(s'.nodes, i) == ChainOf(s.nodes, i) && s.cache.Keys <= s'.cache.Keys
    ensures var s' := After(chain, bn, base, s, steps);
            Tracks(s'.cache, s'.accessed) && forall k: ReadKey :: Agrees(s'.cache, chain, bn, k)
    ensures forall k: ReadKey ::
              Answer(chain, bn, After(chain, bn, base, s, steps), i, k) == Answer(chain, bn, s, i, k)
  {
    hide ChainOf, Raw, IsRun, After, Fine, Held, Agrees, Fetched;
    var s' := After(chain, bn, base, s, steps);
    assert Inv(chain, bn, base, s.nodes, s);
    RunKeeps(chain, bn, base, s.nodes, s, steps);
    FrozenChain(base, s.nodes, s', i);
    forall k: ReadKey ensures Answer(chain, bn, s', i, k) == Answer(chain, bn, s, i, k) {
      assert Agrees(s.cache, chain, bn, k) && Agrees(s'.cache, chain, bn, k);
      if Raw(k) in s.cache { Cached(s.cache, chain, bn, k); }
      if Raw(k) in s'.cache { Cached(s'.cache, chain, bn, k); }
    }
  }

  /** Isolation: a worker that finished its message got the outcome, the layers and the counters
      that the message alone would have given it. */
  lemma Isolation(chain: Chain, bn: nat, base: nat, s: State, steps: seq<Step>, w: nat)
    requires Begins(chain, bn, base, s) && IsRun(chain, bn, base, s, steps)
    requires w < |After(chain, bn, base, s, steps).workers| && Idle(After(chain, bn, base, s, steps).workers[w])
    ensures var s' := After(chain, bn, base, s, steps);
            var x := s'.workers[w];
            Linked(s'.nodes) && x.top < |s'.nodes| &&
            x.alone == (x.prog.out, Layered(ChainOf(s'.nodes, x.top), x.refund, x.gas))
  {
    hide ChainOf, Agrees, Raw, IsRun, After, Held;
    var s' := After(chain, bn, base, s, steps);
    assert Inv(chain, bn, base, s.nodes, s);
    RunKeeps(chain, bn, base, s.nodes, s, steps);
    assert Fine(RootAt(chain, bn), base, s.nodes, s', w);
  }
}
