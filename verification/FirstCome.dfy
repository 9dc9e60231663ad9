/** The batching server answers the requests of a kind in the order in which they were queued
    (mferstate/overlaystate.go, timeSlot). */
module FirstCome {
  import opened Sequences
  import opened Keys
  import opened Upstream
  import opened Layers
  import opened Batching

  /** Those of the channels whose clients ask for this kind of value. */
  function OfKind(clients: seq<Phase>, chans: seq<nat>, kind: Kind): seq<nat> {
    if chans == [] then []
    else
      var n := |chans| - 1;
      OfKind(clients, chans[..n], kind) +
      if chans[n] < |clients| && KindOf(clients[chans[n]].key) == kind then [chans[n]] else []
  }

  /** The channels of one kind, those replied to first, then those in the server's hands, then those in
      the queue. */
  function Turn(s: State, kind: Kind): seq<nat> {
    OfKind(s.clients, Senders(s.sent) + InHand(s.server), kind) + Queue(s, kind)
  }

  lemma {:induction false} OfKindConcat(clients: seq<Phase>, a: seq<nat>, b: seq<nat>, kind: Kind)
    ensures OfKind(clients, a + b, kind) == OfKind(clients, a, kind) + OfKind(clients, b, kind)
    decreases |b|
  {
    if b == [] {
      assert a + b == a;
    } else {
      var n := |b| - 1;
      OfKindConcat(clients, a, b[..n], kind);
      assert (a + b)[..|a + b| - 1] == a + b[..n];
    }
  }

  /** Clients keep their key. */
  ghost predicate SameKeys(clients: seq<Phase>, clients': seq<Phase>) {
    |clients| <= |clients'| && forall c :: 0 <= c < |clients| ==> clients'[c].key == clients[c].key
  }

  lemma {:induction false} OfKindSame(clients: seq<Phase>, clients': seq<Phase>, chans: seq<nat>, kind: Kind)
    requires SameKeys(clients, clients') && forall i :: 0 <= i < |chans| ==> chans[i] < |clients|
    ensures OfKind(clients', chans, kind) == OfKind(clients, chans, kind)
    decreases |chans|
  {
    if chans != [] {
      OfKindSame(clients, clients', chans[..|chans| - 1], kind);
    }
  }

  lemma KeysStay(chain: Chain, bn: nat, s: State, step: Step)
    requires Enabled(s, step)
    ensures SameKeys(s.clients, Next(chain, bn, s, step).clients)
  {
    hide Raw, FillIn, Served, CanMove, Moved;
    if step.Refresh? {
      MovedOthers(chain, bn, s, step.move);
    }
  }

  lemma SendersSnocs(sent: seq<(nat, Reply)>, last: (nat, Reply))
    ensures Senders(sent + [last]) == Senders(sent) + [last.0]
  {
  }

  /** Every channel replied to or in the server's hands is a client's. */
  lemma HandsAreClients(chain: Chain, bn: nat, s: State)
    requires Inv(chain, bn, s)
    ensures var chans := Senders(s.sent) + InHand(s.server);
            forall i :: 0 <= i < |chans| ==> chans[i] < |s.clients|
  {
    hide Placed, Bounded, Locked, Right, Cached, Tracked, Served, Raw;
    forall i | 0 <= i < |s.sent| ensures s.sent[i].0 < |s.clients| {
      assert At(s, s.sent[i].0);
    }
    var hand := InHand(s.server);
    forall i | 0 <= i < |hand| ensures hand[i] < |s.clients| {
    }
  }

  /** A step that moves nothing from the queues into the server's hands or out of them keeps the turn. */
  lemma SameTurn(s: State, s': State, kind: Kind)
    requires SameKeys(s.clients, s'.clients)
    requires Senders(s'.sent) + InHand(s'.server) == Senders(s.sent) + InHand(s.server)
    requires var chans := Senders(s.sent) + InHand(s.server);
             forall i :: 0 <= i < |chans| ==> chans[i] < |s.clients|
    ensures Turn(s', kind) == OfKind(s.clients, Senders(s.sent) + InHand(s.server), kind) + Queue(s', kind)
  {
    OfKindSame(s.clients, s'.clients, Senders(s.sent) + InHand(s.server), kind);
  }

  lemma OfKindSnoc(clients: seq<Phase>, chans: seq<nat>, c: nat, kind: Kind)
    requires c < |clients|
    ensures OfKind(clients, chans + [c], kind) ==
            OfKind(clients, chans, kind) + if KindOf(clients[c].key) == kind then [c] else []
  {
    assert (chans + [c])[..|chans|] == chans;
  }

  lemma Dequeued(chain: Chain, bn: nat, s: State)
    requires Matched(chain, bn, s) && Enabled(s, Dequeue)
    ensures var v, s', q := s.server, Next(chain, bn, s, Dequeue), Queue(s, s.server.kind);
            && s'.clients == s.clients && s'.sent == s.sent && InHand(s'.server) == InHand(v) + [q[0]]
            && Queue(s', v.kind) == q[1..] && (forall kind :: kind != v.kind ==> Queue(s', kind) == Queue(s, kind))
            && q[0] < |s.clients| && KindOf(s.clients[q[0]].key) == v.kind
  {
    hide Raw, Served;
    assert QueuedAs(s, Queue(s, s.server.kind)[0], s.server.kind);
  }

  /** The server takes the first of a queue into its hands. */
  lemma DequeueTurn(chain: Chain, bn: nat, s: State, kind: Kind)
    requires Matched(chain, bn, s) && Enabled(s, Dequeue)
    ensures Turn(Next(chain, bn, s, Dequeue), kind) == Turn(s, kind)
  {
    hide Matched, Next, OfKind, InHand, Senders;
    var s', q := Next(chain, bn, s, Dequeue), Queue(s, s.server.kind);
    Dequeued(chain, bn, s);
    hide Enabled, Queue, KindOf;
    var chans := Senders(s.sent) + InHand(s.server);
    OfKindSnoc(s.clients, chans, q[0], kind);
    Reassociate(Senders(s.sent), InHand(s.server), [q[0]]);
    Reassociate(OfKind(s.clients, chans, kind), [q[0]], q[1..]);
    assert q == [q[0]] + q[1..];
  }

  /** Steps that leave the queues, the server's hands and the replies alone, or pass a channel on from
      the hands to the replies. */
  lemma PassedOn(chain: Chain, bn: nat, s: State, step: Step)
    requires Bounded(s) && Enabled(s, step) && !step.Enqueue? && !step.Dequeue?
    ensures var s' := Next(chain, bn, s, step);
            && Senders(s'.sent) + InHand(s'.server) == Senders(s.sent) + InHand(s.server)
            && s'.slotQueue == s.slotQueue && s'.accountQueue == s.accountQueue
  {
    hide Raw, FillIn, Served, CanMove, Moved, Senders;
    if step.Refresh? {
      MovedOthers(chain, bn, s, step.move);
    } else if step.SendReply? {
      var c := s.server.chans[0];
      SendersSnocs(s.sent, (c, s.server.replies[0]));
      assert s.server.chans == [c] + s.server.chans[1..];
      assert Senders(s.sent) + [c] + s.server.chans[1..] == Senders(s.sent) + ([c] + s.server.chans[1..]);
    }
  }

  /** Every step keeps the order of those whose turn is yet to come; a new request goes to the end. */
  lemma TurnStep(chain: Chain, bn: nat, s: State, step: Step, kind: Kind)
    requires Inv(chain, bn, s) && Enabled(s, step)
    ensures Turn(Next(chain, bn, s, step), kind) == Turn(s, kind) + Joins(s, step, kind)
  {
    hide Inv, OfKind, Senders, InHand, Raw, FillIn, Served;
    var s' := Next(chain, bn, s, step);
    HandsAreClients(chain, bn, s);
    KeysStay(chain, bn, s, step);
    if step.Dequeue? {
      assert Matched(chain, bn, s) by { Parts(chain, bn, s); }
      DequeueTurn(chain, bn, s, kind);
      assert Turn(s, kind) + [] == Turn(s, kind);
    } else if step.Enqueue? {
      assert s'.sent == s.sent && s'.server == s.server;
      SameTurn(s, s', kind);
      assert Queue(s', kind) == Queue(s, kind) + Joins(s, step, kind);
    } else {
      assert Bounded(s) by { Parts(chain, bn, s); }
      PassedOn(chain, bn, s, step);
      SameTurn(s, s', kind);
      assert Turn(s, kind) + [] == Turn(s, kind);
    }
  }

  lemma Parts(chain: Chain, bn: nat, s: State)
    requires Inv(chain, bn, s)
    ensures Bounded(s) && Matched(chain, bn, s)
  {
    hide Placed, Matched, Bounded, Locked, Right, Cached, Tracked, Recorded;
  }

  /** The client that joins the queue of its kind in this step, if any. */
  function Joins(s: State, step: Step, kind: Kind): seq<nat> {
    if step.Enqueue? && At(s, step.c) && KindOf(s.clients[step.c].key) == kind then [step.c] else []
  }

  /** Those that join the queue in a run, in order. */
  ghost function Joined(chain: Chain, bn: nat, s: State, steps: seq<Step>, kind: Kind): seq<nat>
    requires IsRun(chain, bn, s, steps)
    decreases |steps|
  {
    if steps == [] then []
    else Joins(s, steps[0], kind) + Joined(chain, bn, Next(chain, bn, s, steps[0]), steps[1..], kind)
  }

  lemma {:induction false} TurnRun(chain: Chain, bn: nat, s: State, steps: seq<Step>, kind: Kind)
    requires Inv(chain, bn, s) && IsRun(chain, bn, s, steps)
    ensures Turn(After(chain, bn, s, steps), kind) == Turn(s, kind) + Joined(chain, bn, s, steps, kind)
    decreases |steps|
  {
    hide Inv, Next, Enabled, Turn, Joins;
    if steps == [] {
      assert Turn(s, kind) + [] == Turn(s, kind);
    } else {
      var s' := Next(chain, bn, s, steps[0]);
      TurnStep(chain, bn, s, steps[0], kind);
      InvStep(chain, bn, s, steps[0]);
      TurnRun(chain, bn, s', steps[1..], kind);
      assert (Turn(s, kind) + Joins(s, steps[0], kind)) + Joined(chain, bn, s', steps[1..], kind) ==
             Turn(s, kind) + (Joins(s, steps[0], kind) + Joined(chain, bn, s', steps[1..], kind));
    }
  }

  lemma NoTurn(chain: Chain, bn: nat, start: State, kind: Kind)
    requires Initial(chain, bn, start)
    ensures Turn(start, kind) == []
  {
    assert Senders(start.sent) + InHand(start.server) == [];
  }

  /** First come, first served: in every interleaving the clients of a kind get their replies in the
      order in which they joined its queue, none overtaken, and those not yet replied to are, in that
      order, the ones in the server's hands and in the queue. */
  lemma FirstComeFirstServed(chain: Chain, bn: nat, start: State, steps: seq<Step>, kind: Kind)
    requires Initial(chain, bn, start) && IsRun(chain, bn, start, steps)
    ensures var s := After(chain, bn, start, steps);
            OfKind(s.clients, Senders(s.sent), kind) + (OfKind(s.clients, InHand(s.server), kind) + Queue(s, kind)) ==
              Joined(chain, bn, start, steps, kind)
  {
    hide Inv, Next, Enabled, After, IsRun, Joined, Queue, KindOf;
    var s := After(chain, bn, start, steps);
    InitialInv(chain, bn, start);
    TurnRun(chain, bn, start, steps, kind);
    NoTurn(chain, bn, start, kind);
    OfKindConcat(s.clients, Senders(s.sent), InHand(s.server), kind);
    Reassociate(OfKind(s.clients, Senders(s.sent), kind), OfKind(s.clients, InHand(s.server), kind), Queue(s, kind));
    assert [] + Joined(chain, bn, start, steps, kind) == Joined(chain, bn, start, steps, kind);
  }
}
