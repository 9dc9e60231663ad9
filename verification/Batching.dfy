/** The request-batching protocol (mferstate/overlaystate.go): any number of root readers, two
    bounded queues of reply channels, one server and the refresher of the root, as a step relation. A
    client is numbered; its number also names its reply channel. The block number is fixed. */
module Batching {
  import opened Words
  import opened Sequences
  import opened Keys
  import opened Upstream
  import opened Layers
  import opened RootCache
  import F = KeyFile

  datatype Kind = Slots | Accounts

  datatype Request = SlotRequest(account: Address, slot: Hash) | AccountRequest(account: Address)

  datatype Reply = SlotReply(value: Hash) | AccountReply(fetched: Account)

  /** Where a call of `get` at the root stands. `asked` tells that the cache did not answer it. */
  datatype Phase =
    | Start(key: ReadKey)
    | Looking(key: ReadKey)
    | Missed(key: ReadKey)
    | Queued(key: ReadKey)
    | Waiting(key: ReadKey)
    | Replied(key: ReadKey, reply: Reply)
    | Filling(key: ReadKey, reply: Reply)
    | Finished(key: ReadKey, value: Bytes, asked: bool)

  /** Where the server loop stands: the sampled lengths, the channels dequeued so far with the
      requests read from them, the replies still to be sent. */
  datatype Server =
    | Idle
    | Sampled(slots: nat, accounts: nat)
    | Draining(kind: Kind, n: nat, chans: seq<nat>, reqs: seq<Request>)
    | Receiving(kind: Kind, n: nat, chans: seq<nat>, reqs: seq<Request>, chan: nat)
    | Fetching(chans: seq<nat>, reqs: seq<Request>)
    | Replying(chans: seq<nat>, replies: seq<Reply>)

  /** Where resetScratchPad stands; from Begun to Refetched it holds the lock. `sound` tells that the
      account entries it found were upstream's. */
  datatype Stage =
    | Resting
    | Begun(sound: bool)
    | Seeded(sound: bool)
    | Stored(sound: bool)
    | Listed(sound: bool, accounts: seq<Address>)
    | Refetched

  datatype Holder = Free | Client(c: nat) | Refresher

  /** `lock` is the scratch-pad mutex's holder, `accessed` the remembered accounts, `sent` the history
      of replies. */
  datatype State = State(
    clients: seq<Phase>, slotQueue: seq<nat>, accountQueue: seq<nat>, server: Server,
    lock: Holder, cache: Pad, accessed: set<Address>, stage: Stage, sent: seq<(nat, Reply)>)

  const SLOT_CAPACITY := 500
  const ACCOUNT_CAPACITY := 200

  function KindOf(k: ReadKey): Kind {
    if k.Slot? then Slots else Accounts
  }

  function RequestOf(k: ReadKey): Request {
    if k.Slot? then SlotRequest(k.account, k.slot) else AccountRequest(k.account)
  }

  /** The batch result for one request. */
  function Served(chain: Chain, bn: nat, r: Request): Reply {
    match r
    case SlotRequest(a, slot) => SlotReply(chain.storage(bn, a, slot))
    case AccountRequest(a) => AccountReply(chain.account(bn, a))
  }

  function Queue(s: State, kind: Kind): seq<nat> {
    if kind == Slots then s.slotQueue else s.accountQueue
  }

  function WithQueue(s: State, kind: Kind, q: seq<nat>): State {
    if kind == Slots then s.(slotQueue := q) else s.(accountQueue := q)
  }

  function Capacity(kind: Kind): nat {
    if kind == Slots then SLOT_CAPACITY else ACCOUNT_CAPACITY
  }

  function Put(s: State, c: nat, p: Phase): State
    requires c < |s.clients|
  {
    s.(clients := s.clients[c := p])
  }

  /** What a client files under the lock once it has its reply. */
  function FillIn(pad: Pad, chain: Chain, k: ReadKey, reply: Reply): Pad {
    match reply
    case SlotReply(v) => pad[Raw(k) := v]
    case AccountReply(acc) => FillAccount(pad, chain, k.account, acc)
  }

  datatype Step =
    | Arrive(key: ReadKey)
    | Lock(c: nat)
    | Look(c: nat)
    | Enqueue(c: nat)
    | Sample
    | Tick(kind: Kind)
    | Dequeue
    | Receive
    | Drained
    | FetchFails
    | FetchSucceeds
    | SendReply
    | EndRound
    | Relock(c: nat)
    | Fill(c: nat)
    | Refresh(move: Move)

  /** The refresher's moves: take the lock, seed placeholders from the key file, store the fetched
      slots, list the remembered accounts, store what was fetched for them, release the lock. If the
      account fetch fails it gives up: it releases the lock over the accounts it found, which a run here
      does only if they were sound. */
  datatype Move =
    | Take
    | SeedFile(file: string, max: nat)
    | StoreSlots(reqs: seq<(Address, Hash)>)
    | ListAccounts(accounts: seq<Address>)
    | StoreAccounts
    | GiveUp
    | Release

  ghost predicate CanMove(s: State, move: Move) {
    match move
    case Take => s.lock == Free && s.stage.Resting?
    case SeedFile(_, _) => s.stage.Begun?
    case StoreSlots(reqs) => s.stage.Seeded? && Lists(reqs, SlotRequests(s.cache))
    case ListAccounts(accounts) => s.stage.Stored? && Lists(accounts, s.accessed)
    case StoreAccounts => s.stage.Listed?
    case GiveUp => s.stage.Listed? && s.stage.sound
    case Release => s.stage.Refetched?
  }

  ghost function Moved(chain: Chain, bn: nat, s: State, move: Move): State
    requires CanMove(s, move)
  {
    match move
    case Take => s.(lock := Refresher, stage := Begun(true))
    case SeedFile(file, max) =>
      var seeded := SeedPad(s.cache, F.Seeds(file, max));
      s.(cache := seeded, accessed := Remembered(s.accessed, seeded), stage := Seeded(s.stage.sound))
    case StoreSlots(reqs) => s.(cache := FileSlots(s.cache, chain, bn, reqs), stage := Stored(s.stage.sound))
    case ListAccounts(accounts) => s.(stage := Listed(s.stage.sound, accounts))
    case StoreAccounts => s.(cache := FileAccounts(s.cache, chain, bn, s.stage.accounts), stage := Refetched)
    case GiveUp => s.(lock := Free, stage := Resting)
    case Release => s.(lock := Free, stage := Resting)
  }

  /** What the server marks as accessed while it builds an account batch, before each attempt to send it. */
  function Asked(reqs: seq<Request>): set<Address> {
    set r | r in reqs && r.AccountRequest? :: r.account
  }

  predicate At(s: State, c: nat) {
    c < |s.clients|
  }

  /** When a step can be taken. Channel operations need their partner, the mutex must be free. */
  ghost predicate Enabled(s: State, step: Step) {
    match step
    case Arrive(_) => true
    case Lock(c) => At(s, c) && s.clients[c].Start? && s.lock == Free
    case Look(c) => At(s, c) && s.clients[c].Looking? && s.lock == Client(c)
    case Enqueue(c) =>
      At(s, c) && s.clients[c].Missed? &&
      |Queue(s, KindOf(s.clients[c].key))| < Capacity(KindOf(s.clients[c].key))
    case Sample => s.server.Idle?
    case Tick(_) => s.server.Sampled?
    case Dequeue => s.server.Draining? && |s.server.chans| < s.server.n && Queue(s, s.server.kind) != []
    case Receive => s.server.Receiving? && At(s, s.server.chan) && s.clients[s.server.chan].Queued?
    case Drained => s.server.Draining? && |s.server.chans| >= s.server.n
    case FetchFails => s.server.Fetching?
    case FetchSucceeds => s.server.Fetching?
    case SendReply =>
      s.server.Replying? && s.server.chans != [] && s.server.replies != [] &&
      At(s, s.server.chans[0]) && s.clients[s.server.chans[0]].Waiting?
    case EndRound => s.server.Replying? && s.server.chans == []
    case Relock(c) => At(s, c) && s.clients[c].Replied? && s.lock == Free
    case Fill(c) => At(s, c) && s.clients[c].Filling? && s.lock == Client(c)
    case Refresh(move) => CanMove(s, move)
  }

  ghost function Next(chain: Chain, bn: nat, s: State, step: Step): State
    requires Enabled(s, step)
  {
    var v := s.server;
    match step
    case Arrive(k) => s.(clients := s.clients + [Start(k)])
    case Lock(c) => Put(s, c, Looking(s.clients[c].key)).(lock := Client(c))
    case Look(c) =>
      var k := s.clients[c].key;
      Put(s, c, if Raw(k) in s.cache then Finished(k, s.cache[Raw(k)], false) else Missed(k)).(lock := Free)
    case Enqueue(c) =>
      var k := s.clients[c].key;
      WithQueue(Put(s, c, Queued(k)), KindOf(k), Queue(s, KindOf(k)) + [c])
    case Sample => s.(server := Sampled(|s.slotQueue|, |s.accountQueue|))
    case Tick(kind) => s.(server := Draining(kind, if kind == Slots then v.slots else v.accounts, [], []))
    case Dequeue =>
      var q := Queue(s, v.kind);
      WithQueue(s, v.kind, q[1..]).(server := Receiving(v.kind, v.n, v.chans, v.reqs, q[0]))
    case Receive =>
      var k := s.clients[v.chan].key;
      Put(s, v.chan, Waiting(k)).(server := Draining(v.kind, v.n, v.chans + [v.chan], v.reqs + [RequestOf(k)]))
    case Drained =>
      if v.n > 0 then s.(server := Fetching(v.chans, v.reqs), accessed := s.accessed + Asked(v.reqs))
      else s.(server := Replying([], []))
    case FetchFails => s.(accessed := s.accessed + Asked(v.reqs))
    case FetchSucceeds =>
      s.(server := Replying(v.chans, seq(|v.reqs|, i requires 0 <= i < |v.reqs| => Served(chain, bn, v.reqs[i]))))
    case SendReply =>
      var c := v.chans[0];
      Put(s, c, Replied(s.clients[c].key, v.replies[0])).(
        server := Replying(v.chans[1..], v.replies[1..]), sent := s.sent + [(c, v.replies[0])])
    case EndRound => s.(server := Idle)
    case Relock(c) => Put(s, c, Filling(s.clients[c].key, s.clients[c].reply)).(lock := Client(c))
    case Fill(c) =>
      var k := s.clients[c].key;
      var filled := FillIn(s.cache, chain, k, s.clients[c].reply);
      Put(s, c, Finished(k, if Raw(k) in filled then filled[Raw(k)] else [], true)).(cache := filled, lock := Free)
    case Refresh(move) => Moved(chain, bn, s, move)
  }

  // ----- The invariant, part by part -----

  function InHand(v: Server): seq<nat> {
    match v
    case Idle => []
    case Sampled(_, _) => []
    case Draining(_, _, chans, _) => chans
    case Receiving(_, _, chans, _, c) => chans + [c]
    case Fetching(chans, _) => chans
    case Replying(chans, _) => chans
  }

  predicate Outstanding(s: State, c: nat) {
    c < |s.clients| && (s.clients[c].Queued? || s.clients[c].Waiting?)
  }

  /** No request is lost or doubled: each outstanding client's channel is in exactly one place, a
      queue or the server's hands, and no other channel is anywhere. */
  ghost predicate Placed(s: State) {
    forall c: nat :: Pending(s)[c] == if Outstanding(s, c) then 1 else 0
  }

  /** Every channel in a queue or in the server's hands. */
  ghost function Pending(s: State): multiset<nat> {
    multiset(s.slotQueue) + multiset(s.accountQueue) + multiset(InHand(s.server))
  }

  predicate QueuedAs(s: State, c: nat, kind: Kind) {
    c < |s.clients| && s.clients[c].Queued? && KindOf(s.clients[c].key) == kind
  }

  predicate WaitingFor(s: State, c: nat, r: Request) {
    c < |s.clients| && s.clients[c].Waiting? && RequestOf(s.clients[c].key) == r
  }

  predicate OwedReply(chain: Chain, bn: nat, s: State, c: nat, r: Reply) {
    c < |s.clients| && s.clients[c].Waiting? && r == Served(chain, bn, RequestOf(s.clients[c].key))
  }

  /** A queued channel's client is about to send its request; a channel in hand is of the client
      whose request stands at the same position. */
  ghost predicate Matched(chain: Chain, bn: nat, s: State) {
    && (forall i :: 0 <= i < |s.slotQueue| ==> QueuedAs(s, s.slotQueue[i], Slots))
    && (forall i :: 0 <= i < |s.accountQueue| ==> QueuedAs(s, s.accountQueue[i], Accounts))
    && match s.server
       case Idle => true
       case Sampled(_, _) => true
       case Draining(_, _, chans, reqs) =>
         |reqs| == |chans| && forall i :: 0 <= i < |chans| ==> WaitingFor(s, chans[i], reqs[i])
       case Receiving(kind, _, chans, reqs, c) =>
         QueuedAs(s, c, kind) &&
         |reqs| == |chans| && forall i :: 0 <= i < |chans| ==> WaitingFor(s, chans[i], reqs[i])
       case Fetching(chans, reqs) =>
         |reqs| == |chans| && forall i :: 0 <= i < |chans| ==> WaitingFor(s, chans[i], reqs[i])
       case Replying(chans, replies) =>
         |replies| == |chans| && forall i :: 0 <= i < |chans| ==> OwedReply(chain, bn, s, chans[i], replies[i])
  }

  /** The server never drains more than is queued: what it sampled can only have been exceeded. */
  ghost predicate Bounded(s: State) {
    && |s.slotQueue| <= SLOT_CAPACITY && |s.accountQueue| <= ACCOUNT_CAPACITY
    && match s.server
       case Sampled(n, m) => n <= |s.slotQueue| && m <= |s.accountQueue|
       case Draining(kind, n, chans, _) => |chans| <= n <= |chans| + |Queue(s, kind)|
       case Receiving(kind, n, chans, _, _) => |chans| < n <= |chans| + 1 + |Queue(s, kind)|
       case _ => true
  }

  /** The mutex is held by the client that is looking or filling or by the refresher, and by nobody
      else: in particular by nobody who waits for a queue slot, for the server or for a reply. */
  ghost predicate Locked(s: State) {
    && (forall c: nat :: s.lock == Client(c) <==> At(s, c) && (s.clients[c].Looking? || s.clients[c].Filling?))
    && (s.lock == Refresher <==> !s.stage.Resting?)
  }

  /** Replies and results are the upstream values of what the client asked for. */
  ghost predicate Right(chain: Chain, bn: nat, s: State) {
    forall c: nat :: At(s, c) ==>
      match s.clients[c]
      case Replied(k, r) => r == Served(chain, bn, RequestOf(k))
      case Filling(k, r) => r == Served(chain, bn, RequestOf(k))
      case Finished(k, v, _) => v == Fetched(chain, bn, k)
      case _ => true
  }

  ghost predicate AllAgree(pad: Pad, chain: Chain, bn: nat) {
    forall k: ReadKey :: Agrees(pad, chain, bn, k)
  }

  ghost predicate AccountsAgree(pad: Pad, chain: Chain, bn: nat) {
    forall k: ReadKey :: !k.Slot? ==> Agrees(pad, chain, bn, k)
  }

  /** Whenever the refresher does not hold the lock every cache entry equals upstream; while it holds
      it anything may be cached, placeholders and entries of another block included. */
  ghost predicate Cached(chain: Chain, bn: nat, s: State) {
    match s.stage
    case Resting => AllAgree(s.cache, chain, bn)
    case Begun(sound) => sound ==> AccountsAgree(s.cache, chain, bn)
    case Seeded(sound) => sound ==> AccountsAgree(s.cache, chain, bn)
    case Stored(sound) => SlotsAgree(s.cache, chain, bn) && (sound ==> AccountsAgree(s.cache, chain, bn))
    case Listed(sound, accounts) =>
      && SlotsAgree(s.cache, chain, bn) && (sound ==> AccountsAgree(s.cache, chain, bn))
      && Tracks(s.cache, set a | a in accounts) && forall a :: a in accounts ==> a in s.accessed
    case Refetched => AllAgree(s.cache, chain, bn)
  }

  predicate HoldsAccount(p: Phase) {
    (p.Replied? || p.Filling?) && !p.key.Slot?
  }

  /** Every account with a cached field is remembered, and so is every account whose fields are on
      their way to the cache. */
  ghost predicate Tracked(s: State) {
    && Tracks(s.cache, s.accessed)
    && (forall c: nat :: At(s, c) && HoldsAccount(s.clients[c]) ==> s.clients[c].key.account in s.accessed)
    && (s.server.Fetching? ==> Asked(s.server.reqs) <= s.accessed)
    && (s.server.Replying? ==> forall i :: 0 <= i < |s.server.chans| ==>
          At(s, s.server.chans[i]) &&
          (!s.clients[s.server.chans[i]].key.Slot? ==> s.clients[s.server.chans[i]].key.account in s.accessed))
  }

  predicate HasReply(p: Phase) {
    p.Replied? || p.Filling? || (p.Finished? && p.asked)
  }

  function Senders(sent: seq<(nat, Reply)>): seq<nat> {
    seq(|sent|, i requires 0 <= i < |sent| => sent[i].0)
  }

  /** Every client past its reply got exactly one, the right one; every other client got none. */
  ghost predicate Recorded(chain: Chain, bn: nat, s: State) {
    && (forall c: nat :: multiset(Senders(s.sent))[c] == if At(s, c) && HasReply(s.clients[c]) then 1 else 0)
    && forall i :: 0 <= i < |s.sent| ==>
         At(s, s.sent[i].0) && s.sent[i].1 == Served(chain, bn, RequestOf(s.clients[s.sent[i].0].key))
  }

  ghost predicate Inv(chain: Chain, bn: nat, s: State) {
    && Placed(s) && Matched(chain, bn, s) && Bounded(s) && Locked(s)
    && Right(chain, bn, s) && Cached(chain, bn, s) && Tracked(s) && Recorded(chain, bn, s)
  }

  // ----- Every step keeps it -----

  /** The steps that move no channel. */
  predicate Quiet(step: Step) {
    !step.Enqueue? && !step.Dequeue? && !step.Receive? && !step.SendReply?
  }

  /** The steps that move a client on without asking or answering it. */
  predicate ByClient(step: Step) {
    step.Arrive? || step.Lock? || step.Look? || step.Relock? || step.Fill?
  }

  lemma PlacedByClient(chain: Chain, bn: nat, s: State, step: Step)
    requires Placed(s) && Enabled(s, step) && ByClient(step)
    ensures Placed(Next(chain, bn, s, step))
  {
    hide FillIn, Agrees, Raw, Served;
    var s' := Next(chain, bn, s, step);
    assert s'.slotQueue == s.slotQueue && s'.accountQueue == s.accountQueue && s'.server == s.server;
    forall c: nat ensures Outstanding(s', c) == Outstanding(s, c) {
    }
  }

  lemma PlacedFrame(s: State, s': State)
    requires Placed(s) && s'.clients == s.clients && Pending(s') == Pending(s)
    ensures Placed(s')
  {
    hide Pending;
    forall c: nat ensures Outstanding(s', c) == Outstanding(s, c) {
    }
  }

  lemma PlacedByServer(chain: Chain, bn: nat, s: State, step: Step)
    requires Placed(s) && Bounded(s) && Enabled(s, step) && Quiet(step) && !ByClient(step)
    ensures Placed(Next(chain, bn, s, step))
  {
    hide FillIn, Agrees, Raw, Served, Placed, CanMove, Moved;
    var s' := Next(chain, bn, s, step);
    if step.Refresh? {
      MovedOthers(chain, bn, s, step.move);
    } else {
      assert InHand(s'.server) == InHand(s.server);
    }
    PlacedFrame(s, s');
  }

  lemma PlacedEnqueue(chain: Chain, bn: nat, s: State, c: nat)
    requires Placed(s) && Enabled(s, Enqueue(c))
    ensures Placed(Next(chain, bn, s, Enqueue(c)))
  {
    var s' := Next(chain, bn, s, Enqueue(c));
    assert Pending(s') == Pending(s) + multiset{c} by {
      hide FillIn, Agrees, Raw, Served, Placed;
      assert InHand(s'.server) == InHand(s.server);
      if KindOf(s.clients[c].key) == Slots {
        assert s'.slotQueue == s.slotQueue + [c] && s'.accountQueue == s.accountQueue;
      } else {
        assert s'.accountQueue == s.accountQueue + [c] && s'.slotQueue == s.slotQueue;
      }
    }
    hide Pending, Next, Enabled;
    forall d: nat ensures Outstanding(s', d) == (Outstanding(s, d) || d == c) {
      EnqueueOutstanding(chain, bn, s, c, d);
    }
  }

  lemma EnqueueOutstanding(chain: Chain, bn: nat, s: State, c: nat, d: nat)
    requires Enabled(s, Enqueue(c))
    ensures Outstanding(Next(chain, bn, s, Enqueue(c)), d) == (Outstanding(s, d) || d == c)
    ensures !Outstanding(s, c)
  {
  }

  lemma PlacedDequeue(chain: Chain, bn: nat, s: State)
    requires Placed(s) && Enabled(s, Dequeue)
    ensures Placed(Next(chain, bn, s, Dequeue))
  {
    hide FillIn, Agrees, Raw, Served, Placed;
    var s' := Next(chain, bn, s, Dequeue);
    var q := Queue(s, s.server.kind);
    HeadAndTail(q);
    assert InHand(s'.server) == s.server.chans + [q[0]];
    if s.server.kind == Slots {
      assert s'.slotQueue == q[1..] && s'.accountQueue == s.accountQueue;
    } else {
      assert s'.accountQueue == q[1..] && s'.slotQueue == s.slotQueue;
    }
    PlacedFrame(s, s');
  }

  lemma HeadAndTail(q: seq<nat>)
    requires q != []
    ensures multiset(q) == multiset{q[0]} + multiset(q[1..])
  {
    assert q == [q[0]] + q[1..];
  }

  lemma PlacedReceive(chain: Chain, bn: nat, s: State)
    requires Placed(s) && Enabled(s, Receive)
    ensures Placed(Next(chain, bn, s, Receive))
  {
    var s' := Next(chain, bn, s, Receive);
    assert Pending(s') == Pending(s);
    forall d: nat ensures Outstanding(s', d) == Outstanding(s, d) {
    }
  }

  lemma PlacedReply(chain: Chain, bn: nat, s: State)
    requires Placed(s) && Enabled(s, SendReply)
    ensures Placed(Next(chain, bn, s, SendReply))
  {
    hide Pending, Next, Enabled;
    var s' := Next(chain, bn, s, SendReply);
    var c := FirstReplied(s);
    ReplyPending(chain, bn, s);
    forall d: nat ensures Outstanding(s', d) == (Outstanding(s, d) && d != c) {
      ReplyOutstanding(chain, bn, s, d);
    }
  }

  /** The channel that the next reply goes to. */
  ghost function FirstReplied(s: State): nat
    requires Enabled(s, SendReply)
  {
    s.server.chans[0]
  }

  lemma ReplyPending(chain: Chain, bn: nat, s: State)
    requires Enabled(s, SendReply)
    ensures Pending(s) == Pending(Next(chain, bn, s, SendReply)) + multiset{FirstReplied(s)}
  {
    hide FillIn, Served;
    var s' := Next(chain, bn, s, SendReply);
    HeadAndTail(s.server.chans);
    assert InHand(s'.server) == s.server.chans[1..];
    assert s'.slotQueue == s.slotQueue && s'.accountQueue == s.accountQueue;
    hide Next, Enabled;
  }

  lemma ReplyOutstanding(chain: Chain, bn: nat, s: State, d: nat)
    requires Enabled(s, SendReply)
    ensures Outstanding(Next(chain, bn, s, SendReply), d) == (Outstanding(s, d) && d != FirstReplied(s))
    ensures Outstanding(s, FirstReplied(s))
  {
    hide Served;
  }

  lemma PlacedStep(chain: Chain, bn: nat, s: State, step: Step)
    requires Placed(s) && Bounded(s) && Enabled(s, step)
    ensures Placed(Next(chain, bn, s, step))
  {
    hide Placed, Next, Bounded, Enabled;
    match step
    case Enqueue(c) => PlacedEnqueue(chain, bn, s, c);
    case Dequeue => PlacedDequeue(chain, bn, s);
    case Receive => PlacedReceive(chain, bn, s);
    case SendReply => PlacedReply(chain, bn, s);
    case _ =>
      if ByClient(step) {
        PlacedByClient(chain, bn, s, step);
      } else {
        PlacedByServer(chain, bn, s, step);
      }
  }

  /** A channel in hand is in no queue, and stands at one position only. */
  lemma InHandOnce(s: State, i: nat)
    requires Placed(s) && i < |InHand(s.server)|
    ensures InHand(s.server)[i] !in s.slotQueue && InHand(s.server)[i] !in s.accountQueue
    ensures forall j :: 0 <= j < |InHand(s.server)| && j != i ==> InHand(s.server)[j] != InHand(s.server)[i]
  {
    var h := InHand(s.server);
    var c := h[i];
    assert Pending(s)[c] <= 1;
    assert c in multiset(h) && multiset(h)[c] >= 1;
    assert c in s.slotQueue ==> multiset(s.slotQueue)[c] >= 1;
    assert c in s.accountQueue ==> multiset(s.accountQueue)[c] >= 1;
    forall j | 0 <= j < |h| && j != i ensures h[j] != c {
      if h[j] == c {
        Twice(h, if i < j then i else j, if i < j then j else i);
      }
    }
  }

  /** Whoever is queued or waiting is still so. */
  ghost predicate Undisturbed(s: State, s': State) {
    forall d: nat :: At(s, d) && (s.clients[d].Queued? || s.clients[d].Waiting?) ==>
      At(s', d) && s'.clients[d] == s.clients[d]
  }

  /** Only queued clients are added to the queue. */
  ghost predicate Extends(s: State, q: seq<nat>, q': seq<nat>, kind: Kind) {
    |q| <= |q'| && q'[..|q|] == q && forall i :: |q| <= i < |q'| ==> QueuedAs(s, q'[i], kind)
  }

  lemma MatchedFrame(chain: Chain, bn: nat, s: State, s': State)
    requires Matched(chain, bn, s) && Undisturbed(s, s') && s'.server == s.server
    requires Extends(s', s.slotQueue, s'.slotQueue, Slots) && Extends(s', s.accountQueue, s'.accountQueue, Accounts)
    ensures Matched(chain, bn, s')
  {
    hide Served, Undisturbed, QueuedAs, WaitingFor, OwedReply;
    forall d: nat, kind: Kind ensures QueuedAs(s, d, kind) ==> QueuedAs(s', d, kind) {
      StillQueued(s, s', d, kind);
    }
    forall d: nat, r: Request ensures WaitingFor(s, d, r) ==> WaitingFor(s', d, r) {
      StillWaiting(chain, bn, s, s', d, r, SlotReply(ZERO_HASH));
    }
    forall d: nat, r: Reply ensures OwedReply(chain, bn, s, d, r) ==> OwedReply(chain, bn, s', d, r) {
      StillWaiting(chain, bn, s, s', d, AccountRequest(Zeros(20)), r);
    }
  }

  lemma StillQueued(s: State, s': State, d: nat, kind: Kind)
    requires Undisturbed(s, s')
    ensures QueuedAs(s, d, kind) ==> QueuedAs(s', d, kind)
  {
  }

  lemma StillWaiting(chain: Chain, bn: nat, s: State, s': State, d: nat, q: Request, r: Reply)
    requires Undisturbed(s, s')
    ensures WaitingFor(s, d, q) ==> WaitingFor(s', d, q)
    ensures OwedReply(chain, bn, s, d, r) ==> OwedReply(chain, bn, s', d, r)
  {
    hide Served;
  }

  lemma MatchedByClient(chain: Chain, bn: nat, s: State, step: Step)
    requires Matched(chain, bn, s) && Enabled(s, step) && ByClient(step)
    ensures Matched(chain, bn, Next(chain, bn, s, step))
  {
    hide FillIn, Agrees, Raw, Served, Matched;
    MatchedFrame(chain, bn, s, Next(chain, bn, s, step));
  }

  lemma MatchedEnqueue(chain: Chain, bn: nat, s: State, c: nat)
    requires Matched(chain, bn, s) && Enabled(s, Enqueue(c))
    ensures Matched(chain, bn, Next(chain, bn, s, Enqueue(c)))
  {
    hide FillIn, Agrees, Raw, Served, Matched;
    MatchedFrame(chain, bn, s, Next(chain, bn, s, Enqueue(c)));
  }

  lemma MatchedDequeue(chain: Chain, bn: nat, s: State)
    requires Matched(chain, bn, s) && Enabled(s, Dequeue)
    ensures Matched(chain, bn, Next(chain, bn, s, Dequeue))
  {
    hide FillIn, Agrees, Raw, Served;
  }

  lemma MatchedReceive(chain: Chain, bn: nat, s: State)
    requires Placed(s) && Matched(chain, bn, s) && Enabled(s, Receive)
    ensures Matched(chain, bn, Next(chain, bn, s, Receive))
  {
    hide FillIn, Agrees, Raw, Served, Placed;
    InHandOnce(s, |s.server.chans|);
  }

  lemma MatchedReply(chain: Chain, bn: nat, s: State)
    requires Placed(s) && Matched(chain, bn, s) && Enabled(s, SendReply)
    ensures Matched(chain, bn, Next(chain, bn, s, SendReply))
  {
    hide FillIn, Agrees, Raw, Served, Placed;
    InHandOnce(s, 0);
  }

  lemma MatchedByServer(chain: Chain, bn: nat, s: State, step: Step)
    requires Matched(chain, bn, s) && Enabled(s, step) && Quiet(step) && !ByClient(step)
    ensures Matched(chain, bn, Next(chain, bn, s, step))
  {
    hide FillIn, Agrees, Raw, Served, CanMove, Moved;
    if step.Refresh? {
      hide Matched;
      MovedOthers(chain, bn, s, step.move);
      MatchedFrame(chain, bn, s, Next(chain, bn, s, step));
    }
  }

  lemma MatchedStep(chain: Chain, bn: nat, s: State, step: Step)
    requires Placed(s) && Matched(chain, bn, s) && Enabled(s, step)
    ensures Matched(chain, bn, Next(chain, bn, s, step))
  {
    hide Matched, Placed, Next, Enabled;
    match step
    case Enqueue(c) => MatchedEnqueue(chain, bn, s, c);
    case Dequeue => MatchedDequeue(chain, bn, s);
    case Receive => MatchedReceive(chain, bn, s);
    case SendReply => MatchedReply(chain, bn, s);
    case _ =>
      if ByClient(step) {
        MatchedByClient(chain, bn, s, step);
      } else {
        MatchedByServer(chain, bn, s, step);
      }
  }

  lemma BoundedStep(chain: Chain, bn: nat, s: State, step: Step)
    requires Bounded(s) && Enabled(s, step)
    ensures Bounded(Next(chain, bn, s, step))
  {
    hide FillIn, Agrees, Raw, Served, CanMove, Moved;
    if step.Refresh? {
      MovedOthers(chain, bn, s, step.move);
    }
  }

  lemma LockedStep(chain: Chain, bn: nat, s: State, step: Step)
    requires Locked(s) && Enabled(s, step)
    ensures Locked(Next(chain, bn, s, step))
  {
    hide FillIn, Agrees, Raw, Served;
  }

  lemma FillOneKeeps(pad: Pad, chain: Chain, bn: nat, k: ReadKey, fetched: Account, j: ReadKey)
    requires !k.Slot? && fetched == chain.account(bn, k.account)
    ensures Agrees(pad, chain, bn, j) ==> Agrees(FillOne(pad, chain, k, fetched), chain, bn, j)
    ensures pad.Keys <= FillOne(pad, chain, k, fetched).Keys && Raw(k) in FillOne(pad, chain, k, fetched)
  {
    hide Raw, Agrees;
    PutAgrees(pad, chain, bn, k, j);
  }

  /** Filling in a right reply keeps every entry that agreed, loses none, and caches the key. */
  lemma FillInKeeps(pad: Pad, chain: Chain, bn: nat, k: ReadKey, j: ReadKey)
    ensures var r := FillIn(pad, chain, k, Served(chain, bn, RequestOf(k)));
            (Agrees(pad, chain, bn, j) ==> Agrees(r, chain, bn, j)) && pad.Keys <= r.Keys && Raw(k) in r
  {
    hide Raw, Agrees, FillOne;
    if k.Slot? {
      PutAgrees(pad, chain, bn, k, j);
    } else {
      var a, acc := k.account, chain.account(bn, k.account);
      var r1 := FillOne(pad, chain, Balance(a), acc);
      var r2 := FillOne(r1, chain, Nonce(a), acc);
      var r3 := FillOne(r2, chain, Code(a), acc);
      FillOneKeeps(pad, chain, bn, Balance(a), acc, j);
      FillOneKeeps(r1, chain, bn, Nonce(a), acc, j);
      FillOneKeeps(r2, chain, bn, Code(a), acc, j);
      FillOneKeeps(r3, chain, bn, CodeHash(a), acc, j);
    }
  }

  /** Neither seeding nor storing slots spoils the account entries. */
  lemma AccountsKept(pad: Pad, file: string, max: nat, chain: Chain, bn: nat, reqs: seq<(Address, Hash)>)
    ensures AccountsAgree(SeedPad(pad, F.Seeds(file, max)), chain, bn) <==> AccountsAgree(pad, chain, bn)
    ensures AccountsAgree(FileSlots(pad, chain, bn, reqs), chain, bn) <==> AccountsAgree(pad, chain, bn)
  {
    hide Raw, Agrees, Answering, Fetched, F.Seeds, SeedPad, FileSlots;
    forall k: ReadKey | !k.Slot?
      ensures Agrees(SeedPad(pad, F.Seeds(file, max)), chain, bn, k) <==> Agrees(pad, chain, bn, k)
      ensures Agrees(FileSlots(pad, chain, bn, reqs), chain, bn, k) <==> Agrees(pad, chain, bn, k)
    {
      SeedKeepsAccounts(pad, file, max, chain, bn, k);
      FiledSlots(pad, chain, bn, reqs, k);
      AgreesAnswers(pad, chain, bn, k);
      AgreesAnswers(SeedPad(pad, F.Seeds(file, max)), chain, bn, k);
      AgreesAnswers(FileSlots(pad, chain, bn, reqs), chain, bn, k);
    }
  }

  lemma AgreesAnswers(pad: Pad, chain: Chain, bn: nat, k: ReadKey)
    ensures Agrees(pad, chain, bn, k) <==> Answering(pad, chain, bn)(k) == Fetched(chain, bn, k)
  {
  }

  /** Every move of the refresher keeps the cache as coherent as its stage promises, and tracked. */
  lemma RefreshKeeps(chain: Chain, bn: nat, s: State, move: Move)
    requires Cached(chain, bn, s) && Tracks(s.cache, s.accessed) && CanMove(s, move)
    ensures Cached(chain, bn, Moved(chain, bn, s, move))
    ensures Tracks(Moved(chain, bn, s, move).cache, Moved(chain, bn, s, move).accessed)
  {
    hide Raw, Agrees, Fetched, F.Seeds, SeedPad, FileSlots, FileAccounts, SlotRequests, SlotsAgree, AllAgree,
      AccountsAgree, Tracks;
    match move
    case Take => Both(s.cache, chain, bn);
    case SeedFile(file, max) =>
      SeedKeepsTracks(s.cache, file, max, s.accessed);
      AccountsKept(s.cache, file, max, chain, bn, []);
      TracksMore(SeedPad(s.cache, F.Seeds(file, max)), s.accessed, Moved(chain, bn, s, move).accessed);
    case StoreSlots(reqs) =>
      SlotsRefetched(s.cache, chain, bn, reqs, s.accessed);
      AccountsKept(s.cache, "", 0, chain, bn, reqs);
    case StoreAccounts =>
      var r := FileAccounts(s.cache, chain, bn, s.stage.accounts);
      forall k: ReadKey ensures Agrees(r, chain, bn, k) && (Raw(k) in r && !k.Slot? ==> k.account in s.accessed) {
        AccountsRefetched(s.cache, chain, bn, s.stage.accounts, s.accessed, k);
      }
      Everywhere(r, chain, bn, s.accessed);
    case ListAccounts(accounts) => assert s.accessed == set a | a in accounts;
    case GiveUp => Both(s.cache, chain, bn);
    case Release =>
  }

  lemma Both(pad: Pad, chain: Chain, bn: nat)
    ensures AllAgree(pad, chain, bn) <==> SlotsAgree(pad, chain, bn) && AccountsAgree(pad, chain, bn)
  {
    hide Agrees;
  }

  lemma Everywhere(pad: Pad, chain: Chain, bn: nat, accessed: set<Address>)
    requires forall k: ReadKey :: Agrees(pad, chain, bn, k) && (Raw(k) in pad && !k.Slot? ==> k.account in accessed)
    ensures AllAgree(pad, chain, bn) && Tracks(pad, accessed)
  {
    hide Raw, Agrees;
  }

  /** Filling in keeps a coherent cache coherent. */
  lemma FillKeeps(pad: Pad, chain: Chain, bn: nat, k: ReadKey)
    requires AllAgree(pad, chain, bn)
    ensures AllAgree(FillIn(pad, chain, k, Served(chain, bn, RequestOf(k))), chain, bn)
  {
    hide Raw, Agrees, FillIn, Served;
    forall j: ReadKey ensures Agrees(FillIn(pad, chain, k, Served(chain, bn, RequestOf(k))), chain, bn, j) {
      assert Agrees(pad, chain, bn, j);
      FillInKeeps(pad, chain, bn, k, j);
    }
  }

  /** Lazy-fill coherence: whoever fills, whoever refreshes. */
  lemma CachedStep(chain: Chain, bn: nat, s: State, step: Step)
    requires Cached(chain, bn, s) && Tracked(s) && Right(chain, bn, s) && Locked(s) && Enabled(s, step)
    ensures Cached(chain, bn, Next(chain, bn, s, step))
  {
    hide Raw, FillIn, Served, AllAgree, SlotsAgree, Tracks, CanMove, Moved;
    match step
    case Refresh(move) => RefreshKeeps(chain, bn, s, move);
    case Fill(c) => FillKeeps(s.cache, chain, bn, s.clients[c].key);
    case _ =>
  }

  /** What a fill adds belongs to the account asked for. */
  lemma FillTracks(pad: Pad, chain: Chain, k: ReadKey, reply: Reply, accessed: set<Address>)
    requires Tracks(pad, accessed) && (k.Slot? <==> reply.SlotReply?) && (!k.Slot? ==> k.account in accessed)
    ensures Tracks(FillIn(pad, chain, k, reply), accessed)
  {
    hide Raw, AccountEntry;
    forall j: ReadKey | Raw(j) in FillIn(pad, chain, k, reply) && !j.Slot? ensures j.account in accessed {
      RawInjective(j, k);
      RawInjective(j, Balance(k.account));
      RawInjective(j, Nonce(k.account));
      RawInjective(j, Code(k.account));
      RawInjective(j, CodeHash(k.account));
    }
  }

  lemma TrackedByClient(chain: Chain, bn: nat, s: State, step: Step)
    requires Tracked(s) && Right(chain, bn, s) && Placed(s) && Enabled(s, step) && (ByClient(step) || step.Enqueue?)
    ensures Tracked(Next(chain, bn, s, step))
  {
    hide Raw, FillIn, Tracks;
    if step.Fill? {
      var x := s.clients[step.c];
      FillTracks(s.cache, chain, x.key, x.reply, s.accessed);
    }
  }

  lemma TrackedByServer(chain: Chain, bn: nat, s: State, step: Step)
    requires Tracked(s) && Matched(chain, bn, s) && Enabled(s, step)
    requires !ByClient(step) && !step.Enqueue? && !step.Refresh? && !step.FetchSucceeds?
    ensures Tracked(Next(chain, bn, s, step))
  {
    hide Raw, FillIn, Served, Tracks;
    var s' := Next(chain, bn, s, step);
    TracksMore(s.cache, s.accessed, s'.accessed);
  }

  /** The server has marked every account it is about to answer for. */
  lemma TrackedFetch(chain: Chain, bn: nat, s: State)
    requires Tracked(s) && Matched(chain, bn, s) && Enabled(s, FetchSucceeds)
    ensures Tracked(Next(chain, bn, s, FetchSucceeds))
  {
    hide Raw, Served, Tracks;
    var s' := Next(chain, bn, s, FetchSucceeds);
    var chans, reqs := s.server.chans, s.server.reqs;
    forall i | 0 <= i < |chans|
      ensures At(s, chans[i]) && (!s.clients[chans[i]].key.Slot? ==> s.clients[chans[i]].key.account in s'.accessed)
    {
      assert WaitingFor(s, chans[i], reqs[i]) && reqs[i] in reqs;
    }
  }

  lemma TrackedStep(chain: Chain, bn: nat, s: State, step: Step)
    requires Tracked(s) && Right(chain, bn, s) && Placed(s) && Matched(chain, bn, s) && Cached(chain, bn, s)
    requires Enabled(s, step)
    ensures Tracked(Next(chain, bn, s, step))
  {
    if step.Refresh? {
      hide Tracks, Cached, SeedPad, FileSlots, FileAccounts, SlotRequests, CanMove, Right, Placed, Matched;
      RefreshKeeps(chain, bn, s, step.move);
      MovedOthers(chain, bn, s, step.move);
    } else if ByClient(step) || step.Enqueue? {
      hide *;
      TrackedByClient(chain, bn, s, step);
    } else if step.FetchSucceeds? {
      hide *;
      TrackedFetch(chain, bn, s);
    } else {
      hide *;
      TrackedByServer(chain, bn, s, step);
    }
  }

  /** The refresher touches no client, no queue and not the server, and forgets no account. */
  lemma MovedOthers(chain: Chain, bn: nat, s: State, move: Move)
    requires CanMove(s, move)
    ensures var s' := Moved(chain, bn, s, move);
            && s'.clients == s.clients && s'.server == s.server && s'.sent == s.sent
            && s'.slotQueue == s.slotQueue && s'.accountQueue == s.accountQueue && s.accessed <= s'.accessed
  {
  }

  lemma RightStep(chain: Chain, bn: nat, s: State, step: Step)
    requires Cached(chain, bn, s) && Right(chain, bn, s) && Matched(chain, bn, s) && Locked(s) && Enabled(s, step)
    ensures Right(chain, bn, Next(chain, bn, s, step))
  {
    hide Raw, FillIn, Served, CanMove, Moved;
    if step.Fill? || step.Look? {
      var k := s.clients[step.c].key;
      assert s.stage == Resting;
      assert Agrees(s.cache, chain, bn, k);
      FillInKeeps(s.cache, chain, bn, k, k);
    } else if step.Refresh? {
      MovedOthers(chain, bn, s, step.move);
    }
  }

  lemma RecordedByClient(chain: Chain, bn: nat, s: State, step: Step)
    requires Recorded(chain, bn, s) && Enabled(s, step) && !step.SendReply?
    ensures Recorded(chain, bn, Next(chain, bn, s, step))
  {
    hide Raw, FillIn, Served, CanMove, Moved;
    var s' := Next(chain, bn, s, step);
    if step.Refresh? {
      MovedOthers(chain, bn, s, step.move);
    }
    assert s'.sent == s.sent;
    forall c: nat
      ensures (At(s', c) && HasReply(s'.clients[c])) == (At(s, c) && HasReply(s.clients[c]))
      ensures At(s, c) ==> At(s', c) && s'.clients[c].key == s.clients[c].key
    {
    }
  }

  lemma RecordedReply(chain: Chain, bn: nat, s: State)
    requires Recorded(chain, bn, s) && Matched(chain, bn, s) && Enabled(s, SendReply)
    ensures Recorded(chain, bn, Next(chain, bn, s, SendReply))
  {
    var s' := Next(chain, bn, s, SendReply);
    var c := s.server.chans[0];
    ReplyDelivers(chain, bn, s);
    hide Served, Matched, Next, Enabled, HasReply, Senders, RequestOf;
    SendersSnoc(s.sent, (c, s.server.replies[0]));
    forall d: nat
      ensures multiset(Senders(s'.sent))[d] == if At(s', d) && HasReply(s'.clients[d]) then 1 else 0
    {
      assert multiset(Senders(s'.sent))[d] == multiset(Senders(s.sent))[d] + if d == c then 1 else 0;
    }
  }

  lemma SendersSnoc(sent: seq<(nat, Reply)>, last: (nat, Reply))
    ensures Senders(sent + [last]) == Senders(sent) + [last.0]
  {
  }

  /** A reply goes to one client, answers its request, and touches nobody else. */
  lemma ReplyDelivers(chain: Chain, bn: nat, s: State)
    requires Matched(chain, bn, s) && Enabled(s, SendReply)
    ensures var s' := Next(chain, bn, s, SendReply);
            var c := s.server.chans[0];
            && s'.sent == s.sent + [(c, s.server.replies[0])]
            && |s'.clients| == |s.clients| && At(s, c) && HasReply(s'.clients[c]) && !HasReply(s.clients[c])
            && s.server.replies[0] == Served(chain, bn, RequestOf(s'.clients[c].key))
            && s'.clients[c].key == s.clients[c].key
            && forall d: nat :: At(s, d) && d != c ==> s'.clients[d] == s.clients[d]
  {
    hide Served;
    assert OwedReply(chain, bn, s, s.server.chans[0], s.server.replies[0]);
  }

  lemma InvStep(chain: Chain, bn: nat, s: State, step: Step)
    requires Inv(chain, bn, s) && Enabled(s, step)
    ensures Inv(chain, bn, Next(chain, bn, s, step))
  {
    hide Placed, Matched, Bounded, Locked, Right, Cached, Tracked, Recorded, Next;
    PlacedStep(chain, bn, s, step);
    MatchedStep(chain, bn, s, step);
    BoundedStep(chain, bn, s, step);
    LockedStep(chain, bn, s, step);
    CachedStep(chain, bn, s, step);
    TrackedStep(chain, bn, s, step);
    RightStep(chain, bn, s, step);
    if step.SendReply? {
      RecordedReply(chain, bn, s);
    } else {
      RecordedByClient(chain, bn, s, step);
    }
  }

  // ----- Whole runs -----

  /** Nobody has called the root yet. Either its cache is coherent, or a refresh has just begun over
      whatever is cached, for instance what an earlier block left. */
  ghost predicate Initial(chain: Chain, bn: nat, s: State) {
    && s.clients == [] && s.slotQueue == [] && s.accountQueue == [] && s.server == Idle && s.sent == []
    && Tracks(s.cache, s.accessed)
    && ((s.lock == Free && s.stage == Resting && AllAgree(s.cache, chain, bn)) ||
        (s.lock == Refresher && s.stage.Begun? && (s.stage.sound ==> AccountsAgree(s.cache, chain, bn))))
  }

  ghost predicate IsRun(chain: Chain, bn: nat, s: State, steps: seq<Step>)
    decreases |steps|
  {
    steps == [] || (Enabled(s, steps[0]) && IsRun(chain, bn, Next(chain, bn, s, steps[0]), steps[1..]))
  }

  ghost function After(chain: Chain, bn: nat, s: State, steps: seq<Step>): State
    requires IsRun(chain, bn, s, steps)
    decreases |steps|
  {
    if steps == [] then s else After(chain, bn, Next(chain, bn, s, steps[0]), steps[1..])
  }

  lemma {:induction false} InvRun(chain: Chain, bn: nat, s: State, steps: seq<Step>)
    requires Inv(chain, bn, s) && IsRun(chain, bn, s, steps)
    ensures Inv(chain, bn, After(chain, bn, s, steps))
    decreases |steps|
  {
    hide Inv, Next, Enabled;
    if steps != [] {
      InvStep(chain, bn, s, steps[0]);
      InvRun(chain, bn, Next(chain, bn, s, steps[0]), steps[1..]);
    }
  }

  lemma InitialInv(chain: Chain, bn: nat, s: State)
    requires Initial(chain, bn, s)
    ensures Inv(chain, bn, s)
  {
    hide Raw, Agrees, AllAgree, Tracks;
    assert Pending(s) == multiset{};
    assert Senders(s.sent) == [];
  }

  /** Batching protocol safety, in every interleaving: no channel is in two places or lost; a client
      that asked and has finished got exactly one reply, and it answers its own request; every
      result is the upstream value of the key asked for, so no reader ever sees a placeholder; unless a
      refresh is under way every cache entry equals upstream; and the accounts with cached fields are
      remembered for the next refresh. */
  lemma Safety(chain: Chain, bn: nat, start: State, steps: seq<Step>, c: nat, k: ReadKey)
    requires Initial(chain, bn, start) && IsRun(chain, bn, start, steps)
    ensures var s := After(chain, bn, start, steps);
            && Pending(s)[c] == (if Outstanding(s, c) then 1 else 0)
            && multiset(Senders(s.sent))[c] == (if At(s, c) && HasReply(s.clients[c]) then 1 else 0)
            && (forall i :: 0 <= i < |s.sent| && s.sent[i].0 == c ==>
                  At(s, c) && s.sent[i].1 == Served(chain, bn, RequestOf(s.clients[c].key)))
            && (At(s, c) && s.clients[c].Finished? ==> s.clients[c].value == Fetched(chain, bn, s.clients[c].key))
            && (s.lock != Refresher ==> Agrees(s.cache, chain, bn, k))
            && (Raw(k) in s.cache && !k.Slot? ==> k.account in s.accessed)
  {
    hide Raw, Agrees, Matched, Bounded, Served, Fetched;
    InitialInv(chain, bn, start);
    InvRun(chain, bn, start, steps);
  }

  /** What the refresher can do next: every failed fetch aside, it always can. */
  ghost function NextMove(s: State): Move
    requires !s.stage.Resting?
  {
    match s.stage
    case Begun(_) => SeedFile("", 0)
    case Seeded(_) => StoreSlots(SeqOf(SlotRequests(s.cache)))
    case Stored(_) => ListAccounts(SeqOf(s.accessed))
    case Listed(_, _) => StoreAccounts
    case Refetched => Release
  }

  /** Nobody holds the scratch-pad lock while waiting on a channel: the holder's next step is always
      enabled. The server never waits for a channel that will not come: what it sampled is there
      to dequeue, and its partner in every rendezvous is ready. */
  lemma NobodyBlocksForGood(chain: Chain, bn: nat, s: State)
    requires Inv(chain, bn, s)
    ensures match s.lock
            case Free => true
            case Client(c) => Enabled(s, Look(c)) || Enabled(s, Fill(c))
            case Refresher => !s.stage.Resting? && Enabled(s, Refresh(NextMove(s)))
    ensures match s.server
            case Idle => Enabled(s, Sample)
            case Sampled(_, _) => Enabled(s, Tick(Slots)) && Enabled(s, Tick(Accounts))
            case Draining(_, _, _, _) => Enabled(s, Dequeue) || Enabled(s, Drained)
            case Receiving(_, _, _, _, _) => Enabled(s, Receive)
            case Fetching(_, _) => Enabled(s, FetchSucceeds)
            case Replying(_, _) => Enabled(s, SendReply) || Enabled(s, EndRound)
  {
    hide Raw, Agrees, Placed, Cached, Tracked, Right, Recorded, Served, Locked, Matched, Bounded, Enabled;
    HolderMoves(chain, bn, s);
    ServerMoves(chain, bn, s);
  }

  lemma HolderMoves(chain: Chain, bn: nat, s: State)
    requires Locked(s)
    ensures match s.lock
            case Free => true
            case Client(c) => Enabled(s, Look(c)) || Enabled(s, Fill(c))
            case Refresher => !s.stage.Resting? && Enabled(s, Refresh(NextMove(s)))
  {
    hide SlotRequests;
    if s.lock.Client? {
      var c := s.lock.c;
      assert At(s, c) && (s.clients[c].Looking? || s.clients[c].Filling?);
    }
  }

  lemma ServerMoves(chain: Chain, bn: nat, s: State)
    requires Bounded(s) && Matched(chain, bn, s)
    ensures match s.server
            case Idle => Enabled(s, Sample)
            case Sampled(_, _) => Enabled(s, Tick(Slots)) && Enabled(s, Tick(Accounts))
            case Draining(_, _, _, _) => Enabled(s, Dequeue) || Enabled(s, Drained)
            case Receiving(_, _, _, _, _) => Enabled(s, Receive)
            case Fetching(_, _) => Enabled(s, FetchSucceeds)
            case Replying(_, _) => Enabled(s, SendReply) || Enabled(s, EndRound)
  {
    hide Served;
    if s.server.Replying? && s.server.chans != [] {
      assert OwedReply(chain, bn, s, s.server.chans[0], s.server.replies[0]);
    }
  }

  // ----- Progress -----

  /** How many moves a client still has before it. */
  function Weight(p: Phase): nat {
    match p
    case Start(_) => 8
    case Looking(_) => 7
    case Missed(_) => 6
    case Queued(_) => 5
    case Waiting(_) => 4
    case Replied(_, _) => 3
    case Filling(_, _) => 2
    case Finished(_, _, _) => 0
  }

  function Work(clients: seq<Phase>): nat {
    if clients == [] then 0 else Work(clients[..|clients| - 1]) + Weight(clients[|clients| - 1])
  }

  /** How far the server is from the next move of a client. */
  function Rank(v: Server): nat {
    match v
    case Receiving(_, _, _, _, _) => 0
    case Draining(_, n, chans, _) => if |chans| < n then 1 else 6
    case Sampled(n, m) => if n > 0 || m > 0 then 2 else 7
    case Idle => 3
    case Replying(_, _) => 4
    case Fetching(_, _) => 5
  }

  lemma {:induction false} WorkPut(clients: seq<Phase>, c: nat, p: Phase)
    requires c < |clients|
    ensures Work(clients[c := p]) == Work(clients) - Weight(clients[c]) + Weight(p)
    decreases |clients|
  {
    var n := |clients| - 1;
    if c == n {
      assert clients[c := p][..n] == clients[..n];
    } else {
      WorkPut(clients[..n], c, p);
      assert clients[c := p][..n] == clients[..n][c := p];
    }
  }

  function StageRank(stage: Stage): nat {
    match stage
    case Resting => 0
    case Refetched => 1
    case Listed(_, _) => 2
    case Stored(_) => 3
    case Seeded(_) => 4
    case Begun(_) => 5
  }

  /** The step brings the clients, or else the refresher, or else the server, strictly nearer to the
      end. */
  predicate Nearer(s: State, s': State) {
    |s'.clients| == |s.clients| &&
    (Work(s'.clients) < Work(s.clients) ||
     (s'.clients == s.clients &&
      (StageRank(s'.stage) < StageRank(s.stage) ||
       (s'.stage == s.stage && Rank(s'.server) < Rank(s.server)))))
  }

  predicate AllFinished(s: State) {
    forall c :: 0 <= c < |s.clients| ==> s.clients[c].Finished?
  }

  lemma ClientNearer(chain: Chain, bn: nat, s: State, step: Step, c: nat)
    requires Enabled(s, step) && c < |s.clients|
    requires step == Lock(c) || step == Look(c) || step == Enqueue(c) || step == Relock(c) || step == Fill(c)
    ensures Nearer(s, Next(chain, bn, s, step))
  {
    hide Raw, FillIn, Work;
    var s' := Next(chain, bn, s, step);
    WorkPut(s.clients, c, s'.clients[c]);
    assert s'.clients == s.clients[c := s'.clients[c]];
  }

  lemma ServerNearer(chain: Chain, bn: nat, s: State, step: Step)
    requires Enabled(s, step) && Bounded(s)
    requires step.Receive? || step.SendReply? || step.Dequeue? || step.Drained? || step.FetchSucceeds? || step.EndRound?
             || (step.Tick? &&
                 (s.server == Sampled(0, 0) || (if step.kind == Slots then s.server.slots else s.server.accounts) > 0))
             || (step.Sample? && (s.slotQueue != [] || s.accountQueue != []))
    ensures Nearer(s, Next(chain, bn, s, step))
  {
    hide Raw, FillIn, Work, Served;
    var s' := Next(chain, bn, s, step);
    if step.Receive? {
      WorkPut(s.clients, s.server.chan, s'.clients[s.server.chan]);
    } else if step.SendReply? {
      WorkPut(s.clients, s.server.chans[0], s'.clients[s.server.chans[0]]);
    }
  }

  /** With the lock free, the server idle and nothing queued, an unfinished client can move. */
  lemma ClientCanMove(chain: Chain, bn: nat, s: State, c: nat)
    requires Placed(s) && Locked(s) && c < |s.clients| && !s.clients[c].Finished?
    requires s.lock == Free && s.server == Idle && s.slotQueue == [] && s.accountQueue == []
    ensures Enabled(s, Lock(c)) || Enabled(s, Enqueue(c)) || Enabled(s, Relock(c))
  {
    assert Pending(s) == multiset{};
    assert Pending(s)[c] == 0;
    assert !Outstanding(s, c);
  }

  lemma RefresherNearer(chain: Chain, bn: nat, s: State)
    requires !s.stage.Resting? && CanMove(s, NextMove(s))
    ensures Nearer(s, Next(chain, bn, s, Refresh(NextMove(s))))
  {
    hide SeedPad, FileSlots, FileAccounts, SlotRequests, Work;
  }

  /** The steps that bring new work: a client arrives, a refresh begins. */
  predicate Arrival(step: Step) {
    step.Arrive? || step == Refresh(Take)
  }

  /** Progress: while a client is unfinished some step is enabled that brings the end strictly
      nearer, with nothing arriving and no fetch failing. */
  lemma Progress(chain: Chain, bn: nat, s: State) returns (step: Step)
    requires Inv(chain, bn, s) && !AllFinished(s)
    ensures Enabled(s, step) && !Arrival(step) && !Idling(s, step) && Nearer(s, Next(chain, bn, s, step))
  {
    hide Raw, Agrees, Placed, Matched, Locked, Cached, Tracked, Right, Recorded, Served, Next, Nearer, Work,
      SlotRequests;
    NobodyBlocksForGood(chain, bn, s);
    if s.lock.Client? {
      var c := s.lock.c;
      step := if Enabled(s, Look(c)) then Look(c) else Fill(c);
      ClientNearer(chain, bn, s, step, c);
    } else if s.lock.Refresher? {
      step := Refresh(NextMove(s));
      RefresherNearer(chain, bn, s);
    } else if s.server == Idle && s.slotQueue == [] && s.accountQueue == [] {
      var c :| 0 <= c < |s.clients| && !s.clients[c].Finished?;
      ClientCanMove(chain, bn, s, c);
      step := if Enabled(s, Lock(c)) then Lock(c) else if Enabled(s, Enqueue(c)) then Enqueue(c) else Relock(c);
      ClientNearer(chain, bn, s, step, c);
    } else {
      step :=
        match s.server
        case Idle => Sample
        case Sampled(n, _) => Tick(if n > 0 then Slots else Accounts)
        case Draining(_, n, chans, _) => if |chans| < n then Dequeue else Drained
        case Receiving(_, _, _, _, _) => Receive
        case Fetching(_, _) => FetchSucceeds
        case Replying(chans, _) => if chans == [] then EndRound else SendReply;
      ServerNearer(chain, bn, s, step);
    }
  }

  /** From every reachable state, however many fetches failed before, all clients can be served
      without another one arriving. */
  lemma {:induction false} AllCanFinish(chain: Chain, bn: nat, s: State) returns (steps: seq<Step>)
    requires Inv(chain, bn, s)
    ensures IsRun(chain, bn, s, steps)
    ensures AllFinished(After(chain, bn, s, steps)) && |After(chain, bn, s, steps).clients| == |s.clients|
    decreases Work(s.clients), StageRank(s.stage), Rank(s.server)
  {
    hide Inv, Next, Enabled, Work, Rank, StageRank;
    if AllFinished(s) {
      steps := [];
    } else {
      var step := Progress(chain, bn, s);
      InvStep(chain, bn, s, step);
      var rest := AllCanFinish(chain, bn, Next(chain, bn, s, step));
      steps := [step] + rest;
      assert steps[1..] == rest;
    }
  }

  /** Nothing but an arriving client ever adds work: failed fetches and idle rounds leave it as it is. */
  lemma WorkNeverGrows(chain: Chain, bn: nat, s: State, step: Step)
    requires Enabled(s, step) && !step.Arrive?
    ensures Work(Next(chain, bn, s, step).clients) <= Work(s.clients)
    ensures step.Receive? ==> Work(Next(chain, bn, s, step).clients) < Work(s.clients)
  {
    hide Raw, FillIn, Work, Served, CanMove, Moved;
    var s' := Next(chain, bn, s, step);
    match step
    case Lock(c) => WorkPut(s.clients, c, s'.clients[c]);
    case Look(c) => WorkPut(s.clients, c, s'.clients[c]);
    case Enqueue(c) => WorkPut(s.clients, c, s'.clients[c]);
    case Relock(c) => WorkPut(s.clients, c, s'.clients[c]);
    case Fill(c) => WorkPut(s.clients, c, s'.clients[c]);
    case Receive => WorkPut(s.clients, s.server.chan, s'.clients[s.server.chan]);
    case SendReply => WorkPut(s.clients, s.server.chans[0], s'.clients[s.server.chans[0]]);
    case Refresh(move) => MovedOthers(chain, bn, s, move);
    case _ =>
  }

  ghost predicate NoArrivals(steps: seq<Step>) {
    forall i :: 0 <= i < |steps| ==> !steps[i].Arrive?
  }

  lemma {:induction false} RunNeverGrows(chain: Chain, bn: nat, s: State, steps: seq<Step>)
    requires IsRun(chain, bn, s, steps) && NoArrivals(steps)
    ensures Work(After(chain, bn, s, steps).clients) <= Work(s.clients)
    decreases |steps|
  {
    hide Next, Enabled, Work;
    if steps != [] {
      WorkNeverGrows(chain, bn, s, steps[0]);
      RunNeverGrows(chain, bn, Next(chain, bn, s, steps[0]), steps[1..]);
    }
  }

  /** The server is about to take in a request that its round sampled. */
  predicate AboutToReceive(v: Server) {
    v.Receiving? || (v.Draining? && |v.chans| < v.n)
  }

  /** Until it does, it stays about to. */
  lemma StaysAboutTo(chain: Chain, bn: nat, s: State, step: Step)
    requires Enabled(s, step) && AboutToReceive(s.server) && !step.Receive?
    ensures AboutToReceive(Next(chain, bn, s, step).server)
  {
    hide Raw, FillIn, Served, CanMove, Moved;
    if step.Refresh? {
      MovedOthers(chain, bn, s, step.move);
    }
  }

  /** Every round that takes in a request gets the clients strictly nearer to the end, however the
      steps of clients, failed fetches and refreshes fall in between. */
  lemma {:induction false} EveryRoundCounts(chain: Chain, bn: nat, s: State, steps: seq<Step>)
    requires AboutToReceive(s.server) && IsRun(chain, bn, s, steps) && NoArrivals(steps)
    requires After(chain, bn, s, steps).server == Idle
    ensures Work(After(chain, bn, s, steps).clients) < Work(s.clients)
    decreases |steps|
  {
    hide Next, Enabled, Work;
    if steps != [] {
      var s' := Next(chain, bn, s, steps[0]);
      WorkNeverGrows(chain, bn, s, steps[0]);
      if steps[0].Receive? {
        RunNeverGrows(chain, bn, s', steps[1..]);
      } else {
        StaysAboutTo(chain, bn, s, steps[0]);
        EveryRoundCounts(chain, bn, s', steps[1..]);
      }
    }
  }

  function Receives(steps: seq<Step>): nat {
    if steps == [] then 0 else (if steps[0].Receive? then 1 else 0) + Receives(steps[1..])
  }

  /** So no run without new clients takes in more requests than there was work to begin with. */
  lemma {:induction false} ReceivesBounded(chain: Chain, bn: nat, s: State, steps: seq<Step>)
    requires IsRun(chain, bn, s, steps) && NoArrivals(steps)
    ensures Receives(steps) + Work(After(chain, bn, s, steps).clients) <= Work(s.clients)
    decreases |steps|
  {
    hide Next, Enabled, Work;
    if steps != [] {
      WorkNeverGrows(chain, bn, s, steps[0]);
      ReceivesBounded(chain, bn, Next(chain, bn, s, steps[0]), steps[1..]);
    }
  }

  // ----- Where the refresher falls short -----

  /** resetScratchPad panics if a slot cannot be fetched: the lock is released with the placeholders in
      place. The cache stays coherent if and only if the key file named no slot that can be read. */
  lemma PanicLeavesPlaceholders(chain: Chain, bn: nat, s: State, file: string, max: nat)
    requires s.stage.Begun? && AllAgree(s.cache, chain, bn)
    ensures var seeded := Moved(chain, bn, s, SeedFile(file, max)).(lock := Free, stage := Resting);
            Cached(chain, bn, seeded) <==> forall k: ReadKey :: Raw(k) !in F.Seeds(file, max)
  {
    hide Raw, F.Seeds, Fetched;
    var seeded := SeedPad(s.cache, F.Seeds(file, max));
    forall k: ReadKey ensures Agrees(seeded, chain, bn, k) <==> Raw(k) !in F.Seeds(file, max) {
      assert Agrees(s.cache, chain, bn, k);
      SeedsAreSlots(file, max, k);
      if Raw(k) in F.Seeds(file, max) {
        PlaceholderShows(seeded, chain, bn, k);
      }
    }
  }

  /** If an account fetch fails, the lock is released over the accounts found when it was taken: the
      cache is coherent if and only if those were upstream's, however stale the slots had been. */
  lemma GivingUp(chain: Chain, bn: nat, s: State, file: string, max: nat, reqs: seq<(Address, Hash)>)
    requires s.stage.Begun? && Tracks(s.cache, s.accessed)
    requires Lists(reqs, SlotRequests(SeedPad(s.cache, F.Seeds(file, max))))
    ensures var stored := Moved(chain, bn, Moved(chain, bn, s, SeedFile(file, max)), StoreSlots(reqs));
            Cached(chain, bn, stored.(lock := Free, stage := Resting)) <==> AccountsAgree(s.cache, chain, bn)
  {
    hide Raw, Agrees, F.Seeds, SeedPad, FileSlots, SlotRequests, AllAgree, AccountsAgree, SlotsAgree, Tracks;
    var seeded := SeedPad(s.cache, F.Seeds(file, max));
    SeedKeepsTracks(s.cache, file, max, s.accessed);
    SlotsRefetched(seeded, chain, bn, reqs, s.accessed);
    AccountsKept(s.cache, file, max, chain, bn, []);
    AccountsKept(seeded, "", 0, chain, bn, reqs);
    Both(FileSlots(seeded, chain, bn, reqs), chain, bn);
  }

  /** ClearKeyCache empties the cache and forgets every account under the lock, which the server does
      not hold. */
  function Cleared(s: State): State {
    s.(cache := map[], accessed := {})
  }

  /** It keeps track if and only if no account request is between the server's marking it and its
      client's filling it in: none is being fetched, none is being replied to, no client holds its
      reply. */
  lemma ClearKeepsTrack(s: State)
    requires Tracked(s)
    ensures Tracked(Cleared(s)) <==>
      && (forall c: nat :: At(s, c) ==> !HoldsAccount(s.clients[c]))
      && (s.server.Fetching? ==> forall r :: r in s.server.reqs ==> r.SlotRequest?)
      && (s.server.Replying? ==>
            forall i :: 0 <= i < |s.server.chans| ==> s.clients[s.server.chans[i]].key.Slot?)
  {
    hide Raw;
    if s.server.Fetching? {
      if r :| r in s.server.reqs && r.AccountRequest? {
        assert r.account in Asked(s.server.reqs);
      }
    }
  }

  /** A fetch under way then ends in replies for accounts that nobody marks again... */
  lemma ClearForgetsFetch(chain: Chain, bn: nat, s: State, i: nat)
    requires Inv(chain, bn, s) && s.lock == Free && s.server.Fetching?
    requires i < |s.server.reqs| && s.server.reqs[i].AccountRequest?
    ensures Enabled(Cleared(s), FetchSucceeds) && !Tracked(Next(chain, bn, Cleared(s), FetchSucceeds))
  {
    hide Raw, Served, Placed, Bounded, Locked, Recorded, Cached, Right;
    assert WaitingFor(s, s.server.chans[i], s.server.reqs[i]);
    var s' := Next(chain, bn, Cleared(s), FetchSucceeds);
    assert s'.server.chans[i] == s.server.chans[i] && s'.clients == s.clients && s'.accessed == {};
  }

  /** ...and a client whose account reply has come caches an account nobody remembers. */
  lemma ClearForgets(chain: Chain, bn: nat, s: State, c: nat)
    requires Inv(chain, bn, s) && s.lock == Free && At(s, c) && s.clients[c].Replied? && !s.clients[c].key.Slot?
    ensures var s1 := Cleared(s);
            && Enabled(s1, Relock(c))
            && var s2 := Next(chain, bn, s1, Relock(c));
            && Enabled(s2, Fill(c))
            && var s3 := Next(chain, bn, s2, Fill(c));
            && Raw(s.clients[c].key) in s3.cache && s.clients[c].key.account !in s3.accessed
            && !Tracks(s3.cache, s3.accessed)
  {
    hide Raw, FillIn, Matched, Placed, Bounded, Locked, Recorded, Cached, Tracked;
    var k := s.clients[c].key;
    FillInKeeps(map[], chain, bn, k, k);
    assert s.clients[c].reply == Served(chain, bn, RequestOf(k));
  }

  /** The next refresh, at whatever block, leaves such an entry as it is: it is right afterwards if and
      only if it was upstream's before. */
  lemma ForgottenStays(chain: Chain, bn: nat, pad: Pad, file: string, max: nat, reqs: seq<(Address, Hash)>,
                       accounts: seq<Address>, k: ReadKey)
    requires !k.Slot? && k.account !in accounts
    ensures var last := FileAccounts(FileSlots(SeedPad(pad, F.Seeds(file, max)), chain, bn, reqs), chain, bn, accounts);
            && Answering(last, chain, bn)(k) == Answering(pad, chain, bn)(k)
            && (Agrees(last, chain, bn, k) <==> Agrees(pad, chain, bn, k))
  {
    hide Raw, Agrees, Answering, Fetched, F.Seeds, SeedPad, FileSlots, FileAccounts;
    var seeded := SeedPad(pad, F.Seeds(file, max));
    var stored := FileSlots(seeded, chain, bn, reqs);
    SeedKeepsAccounts(pad, file, max, chain, bn, k);
    FiledSlots(seeded, chain, bn, reqs, k);
    FiledAccounts(stored, chain, bn, accounts, k);
    AgreesAnswers(pad, chain, bn, k);
    AgreesAnswers(FileAccounts(stored, chain, bn, accounts), chain, bn, k);
  }

  // ----- Every run that does not idle -----

  /** Steps that get nobody further: a failed fetch, a sample or a tick that finds nothing. */
  predicate Idling(s: State, step: Step) {
    || step.FetchFails?
    || (step.Sample? && s.slotQueue == [] && s.accountQueue == [])
    || (step.Tick? && s.server.Sampled? && s.server != Sampled(0, 0) &&
        (if step.kind == Slots then s.server.slots else s.server.accounts) == 0)
  }

  /** What is left to be done: by the clients, by a refresh under way, by the server in its round. */
  function Potential(s: State): nat {
    8 * Work(s.clients) + StageRank(s.stage) + Rank(s.server)
  }

  lemma ClientsLower(chain: Chain, bn: nat, s: State, step: Step)
    requires Enabled(s, step) && Bounded(s) && (ByClient(step) || step.Enqueue?) && !step.Arrive?
    ensures Potential(Next(chain, bn, s, step)) < Potential(s)
  {
    hide Raw, FillIn, Work, Served, CanMove, Moved;
    var s' := Next(chain, bn, s, step);
    var c := step.c;
    WorkPut(s.clients, c, s'.clients[c]);
    assert s'.clients == s.clients[c := s'.clients[c]];
  }

  lemma ServerLowers(chain: Chain, bn: nat, s: State, step: Step)
    requires Enabled(s, step) && Bounded(s) && !ByClient(step) && !step.Enqueue? && !step.Refresh?
    ensures Potential(Next(chain, bn, s, step)) + 1 <= Potential(s) + if Idling(s, step) then 8 else 0
  {
    hide Raw, FillIn, Work, Served, CanMove, Moved;
    var s' := Next(chain, bn, s, step);
    if step.Receive? {
      WorkPut(s.clients, s.server.chan, s'.clients[s.server.chan]);
    } else if step.SendReply? {
      WorkPut(s.clients, s.server.chans[0], s'.clients[s.server.chans[0]]);
    }
  }

  lemma RefresherLowers(chain: Chain, bn: nat, s: State, move: Move)
    requires CanMove(s, move) && move != Take
    ensures Potential(Moved(chain, bn, s, move)) < Potential(s)
  {
    hide SeedPad, FileSlots, FileAccounts, SlotRequests, Work;
  }

  function Idled(steps: seq<bool>): nat {
    if steps == [] then 0 else (if steps[0] then 1 else 0) + Idled(steps[1..])
  }

  /** Which steps of a run idle. */
  ghost function Idles(chain: Chain, bn: nat, s: State, steps: seq<Step>): seq<bool>
    requires IsRun(chain, bn, s, steps)
    decreases |steps|
  {
    if steps == [] then []
    else [Idling(s, steps[0])] + Idles(chain, bn, Next(chain, bn, s, steps[0]), steps[1..])
  }

  /** Every run in which nothing arrives is as short as the work to be done and the idle steps in it:
      no interleaving of the others keeps a client waiting for ever. */
  lemma {:induction false} EveryRunEnds(chain: Chain, bn: nat, s: State, steps: seq<Step>)
    requires Inv(chain, bn, s) && IsRun(chain, bn, s, steps)
    requires forall i :: 0 <= i < |steps| ==> !Arrival(steps[i])
    ensures |steps| + Potential(After(chain, bn, s, steps)) <= Potential(s) + 8 * Idled(Idles(chain, bn, s, steps))
    decreases |steps|
  {
    hide Inv, Next, Enabled, Potential, Idling;
    if steps != [] {
      var step := steps[0];
      var s' := Next(chain, bn, s, step);
      StepLowers(chain, bn, s, step);
      InvStep(chain, bn, s, step);
      EveryRunEnds(chain, bn, s', steps[1..]);
      assert Idles(chain, bn, s, steps)[1..] == Idles(chain, bn, s', steps[1..]);
    }
  }

  lemma StepLowers(chain: Chain, bn: nat, s: State, step: Step)
    requires Inv(chain, bn, s) && Enabled(s, step) && !Arrival(step)
    ensures Potential(Next(chain, bn, s, step)) + 1 <= Potential(s) + if Idling(s, step) then 8 else 0
  {
    hide Potential, Placed, Matched, Bounded, Locked, Right, Cached, Tracked, Recorded;
    if step.Refresh? {
      RefresherLowers(chain, bn, s, step.move);
    } else if ByClient(step) || step.Enqueue? {
      ClientsLower(chain, bn, s, step);
    } else {
      ServerLowers(chain, bn, s, step);
    }
  }

  /** And as long as a client is unfinished there is a step to take that is not idle. So every run that
      neither idles nor lets anything arrive, and cannot be continued that way, has served everybody. */
  lemma MaximalRunsFinish(chain: Chain, bn: nat, s: State, steps: seq<Step>)
    requires Inv(chain, bn, s) && IsRun(chain, bn, s, steps)
    requires forall step: Step :: Enabled(After(chain, bn, s, steps), step) && !Arrival(step) ==>
               Idling(After(chain, bn, s, steps), step)
    ensures AllFinished(After(chain, bn, s, steps))
  {
    hide Inv, Enabled, Idling, IsRun, After;
    var last := After(chain, bn, s, steps);
    InvRun(chain, bn, s, steps);
    if !AllFinished(last) {
      var step := Progress(chain, bn, last);
      assert false;
    }
  }
}
