/** mferstate/overlaystate.go: mutable layers linked by parent pointers over a root that caches the
    upstream chain. `parent` and `deriveCnt` are set once, by Derive, and never assigned again. */
module Overlay {
  import opened Words
  import opened Keys
  import opened Upstream
  import opened Layers
  import opened RootCache

  class OverlayState {
    const parent: OverlayState?
    const deriveCnt: nat
    /** The RPC client: what the root fetches from. */
    const upstream: Chain
    /** The layers from the root down to, and without, this one. */
    ghost const ancestors: seq<OverlayState>

    /** The block number behind the root's pointer. */
    var bn: nat
    var scratchPad: Pad
    var accessedAccounts: set<Address>
    var txLogs: TxLogs
    var receipts: Receipts
    var currentTxHash: TxHash
    /** At a root: what a read returns. No read changes it. */
    ghost var view: Root

    /** The depth counter is the distance to the root, and the parent the last ancestor. */
    ghost predicate Sound() {
      && deriveCnt == |ancestors|
      && (parent == null <==> deriveCnt == 0)
      && (parent != null ==> parent == ancestors[deriveCnt - 1] && parent.ancestors == ancestors[..deriveCnt - 1])
    }

    ghost predicate Linked() {
      && Sound()
      && forall i :: 0 <= i < |ancestors| ==> ancestors[i].Sound() && ancestors[i].ancestors == ancestors[..i]
    }

    ghost function Line(): (line: seq<OverlayState>)
      ensures |line| > 0
    {
      ancestors + [this]
    }

    ghost function RootState(): OverlayState {
      Line()[0]
    }

    ghost function Val(): Layer
      reads this
    {
      Layer(scratchPad, txLogs, receipts, currentTxHash)
    }

    ghost function Above(): set<OverlayState> {
      set i | 1 <= i < |Line()| :: Line()[i]
    }

    /** The values of the layers above the root, bottom first. */
    ghost function Stack(): (ls: seq<Layer>)
      reads Above()
      ensures |ls| == |ancestors|
      ensures forall i :: 0 <= i < |ls| ==> ls[i] == Line()[i + 1].Val()
    {
      seq(|ancestors|, i requires 0 <= i < |ancestors| reads Above() => Line()[i + 1].Val())
    }

    /** The view is what the cache and the upstream chain at the current block number answer. */
    ghost predicate Coherent()
      reads this
    {
      forall k: ReadKey :: Answers(scratchPad, upstream, bn, view, k)
    }

    /** Every account with a cached field is remembered as accessed, and code hashes are cached with
        their code. */
    ghost predicate Tracked()
      reads this
    {
      Tracks(scratchPad, accessedAccounts) && Whole(scratchPad, upstream)
    }

    /** At a root: nothing cached or remembered is lost. */
    twostate predicate Kept()
      reads this
    {
      old(scratchPad.Keys) <= scratchPad.Keys && old(accessedAccounts) <= accessedAccounts
    }

    /** At a root: no slot more or less is cached, no account is forgotten and none but these is new. */
    twostate predicate Grew(accounts: set<Address>)
      reads this
    {
      && old(accessedAccounts) <= accessedAccounts <= old(accessedAccounts) + accounts
      && SlotRequests(scratchPad) == old(SlotRequests(scratchPad))
    }

    /** A root keeps no logs and no receipts. */
    ghost predicate Quiet()
      reads this
    {
      txLogs == map[] && receipts == map[] && currentTxHash == NO_TX
    }

    /** What every operation keeps: the links, a quiet root that tracks what it cached, and layers
        whose keys are all built by the key calculation. */
    ghost predicate Healthy()
      reads Line()
    {
      Linked() && RootState().Quiet() && RootState().Tracked() && WellKeyed(Stack())
    }

    static ghost predicate WellKeyed(ls: seq<Layer>) {
      forall i, x :: 0 <= i < |ls| && x in ls[i].pad ==> Parse(x).Some?
    }

    ghost function Base(): Root
      reads RootState()
    {
      RootState().view
    }

    /** NewOverlayState. */
    constructor NewRoot(upstream: Chain, bn: nat)
      ensures Linked() && ancestors == [] && this.upstream == upstream && this.bn == bn
      ensures Coherent() && view == RootAt(upstream, bn) && Tracked() && Quiet() && scratchPad == map[]
    {
      parent, deriveCnt, ancestors := null, 0, [];
      this.upstream, this.bn := upstream, bn;
      scratchPad, accessedAccounts := map[], {};
      txLogs, receipts, currentTxHash := map[], map[], NO_TX;
      view := RootAt(upstream, bn);
    }

    constructor Child(s: OverlayState)
      requires s.Linked()
      ensures Linked() && ancestors == s.Line() && deriveCnt == s.deriveCnt + 1
      ensures Val() == Derived(s.currentTxHash)
    {
      parent, deriveCnt, ancestors := s, s.deriveCnt + 1, s.Line();
      upstream, bn := s.upstream, s.bn;
      scratchPad, accessedAccounts := map[], {};
      txLogs, receipts, currentTxHash := map[], map[], s.currentTxHash;
      view := s.view;
    }

    /** A new empty layer on top of this one. */
    method Derive() returns (state: OverlayState)
      requires Healthy()
      ensures fresh(state) && state.Healthy() && state.ancestors == Line()
      ensures state.Stack() == Stack() + [Derived(currentTxHash)]
    {
      hide Raw, Parse, OverlayState.Tracked;
      ghost var ls := Stack();
      assert WellKeyed(ls);
      state := new OverlayState.Child(this);
      assert Stack() == ls;
      LineLayers(state);
      assert state.RootState() == RootState();
    }

    /** The shape of a healthy line: depth, top layer, and a root that lies below every layer. */
    lemma Shape()
      requires Healthy()
      ensures |Stack()| == deriveCnt == |Line()| - 1 && Line()[deriveCnt] == this
      ensures deriveCnt >= 1 ==> Top(Stack()) == Val() && RootState() != this && this !in ancestors
      ensures RootState() !in Above() && RootState().deriveCnt == 0
      ensures deriveCnt == 0 ==> RootState() == this
    {
      hide Raw, Parse, OverlayState.Tracked;
      RootNotAbove();
      if parent != null {
        ParentLine();
      }
    }

    /** Every layer of a healthy line is healthy, and sees the stack from there down. */
    lemma Lower(s: OverlayState)
      requires Healthy() && s.Linked() && s.Line() <= Line()
      ensures s.Healthy() && s.Stack() == Stack()[..s.deriveCnt] && s.RootState() == RootState()
    {
      hide Raw, Parse, OverlayState.Tracked;
      forall i | 0 <= i < s.deriveCnt ensures s.Stack()[i] == Stack()[i] {
        assert s.Line()[i + 1] == Line()[i + 1];
      }
    }

    lemma ParentHealthy()
      requires Healthy() && deriveCnt >= 1
      ensures parent != null && parent.Healthy() && parent.Line() == ancestors && parent.deriveCnt == deriveCnt - 1
      ensures parent.RootState() == RootState() && Stack() == parent.Stack() + [Val()]
    {
      ParentLine();
      ParentStack();
      Lower(parent);
    }

    lemma KeyedPad()
      requires Healthy() && deriveCnt >= 1
      ensures forall x :: x in scratchPad ==> Parse(x).Some?
    {
      Shape();
      assert Top(Stack()).pad == scratchPad;
    }

    twostate lemma RootStaysHealthy()
      requires old(Healthy()) && deriveCnt == 0 && Quiet() && Tracked()
      ensures Healthy() && RootState() == this
    {
      hide Raw, Parse;
    }

    lemma RootDepth()
      requires Healthy()
      ensures parent == null <==> deriveCnt == 0
    {
    }

    lemma RootHealthy()
      requires Healthy()
      ensures RootState().Healthy() && RootState().ancestors == [] && RootState().Stack() == []
      ensures RootState().Quiet() && RootState().Tracked() && RootState().RootState() == RootState()
    {
      RootNotAbove();
      Lower(RootState());
    }

    /** At whatever block and however stale: the code hash that is read belongs to the code that is read. */
    lemma HashesBelong()
      requires Healthy() && RootState().Coherent()
      ensures HashesFit(RootState().upstream, Base())
    {
      hide Raw;
      RootHealthy();
      var root := RootState();
      WholeFits(root.scratchPad, root.upstream, root.bn);
      forall k: ReadKey ensures root.view(k) == Answering(root.scratchPad, root.upstream, root.bn)(k) {
        assert Answers(root.scratchPad, root.upstream, root.bn, root.view, k);
      }
    }

    lemma QuietRoot()
      requires Healthy() && deriveCnt == 0
      ensures Quiet() && Stack() == [] && parent == null
    {
      Shape();
    }

    /** Work done through another line over the same root leaves this line healthy, as long as it
        wrote to none of this line's own layers. */
    twostate lemma SharedRoot(new s: OverlayState)
      requires old(Healthy()) && s.Healthy() && s.RootState() == RootState() && unchanged(Above())
      ensures Healthy() && Stack() == old(Stack())
    {
      hide Raw, Parse, OverlayState.Tracked;
      assert forall i :: 0 <= i < deriveCnt ==> Stack()[i] == old(Stack())[i];
    }

    /** A line nobody wrote to is as healthy as before. */
    twostate lemma Untouched()
      requires old(Healthy()) && unchanged(Line())
      ensures Healthy() && Stack() == old(Stack())
    {
      assert this in Line();
      assert forall i :: 0 <= i < deriveCnt ==> Stack()[i] == old(Stack())[i];
    }

    /** The logs seen from here are the parent's and then this layer's own. */
    lemma LogsHere(txHash: TxHash)
      requires Healthy()
      ensures parent != null ==> parent.Healthy() && parent.deriveCnt == deriveCnt - 1
      ensures WalkLogs(Stack(), txHash) ==
        (if parent == null then [] else WalkLogs(parent.Stack(), txHash)) + LogsAt(txLogs, txHash)
    {
      Shape();
      if deriveCnt >= 1 {
        ParentHealthy();
        assert Stack()[..deriveCnt - 1] == parent.Stack();
      } else {
        QuietRoot();
      }
    }

    /** When only this layer's own fields changed, only the top of the stack did. */
    twostate lemma OnlyTopChanged()
      requires old(Healthy()) && deriveCnt >= 1 && unchanged(ancestors)
      ensures Stack() == OnTop(old(Stack()), Val())
      ensures (forall x :: x in scratchPad ==> Parse(x).Some?) ==> Healthy()
    {
      hide Raw, Parse, OverlayState.Tracked;
      forall i | 0 <= i < deriveCnt ensures Line()[i] != this {
        LineDistinct(i, deriveCnt);
      }
      assert Line()[0] in ancestors;
      forall i | 0 <= i < deriveCnt - 1 ensures Stack()[i] == old(Stack())[i] {
        assert Line()[i + 1] in ancestors;
      }
      assert OnTop(old(Stack()), Val())[deriveCnt - 1] == Val();
    }

    /** s.scratchPad[key] = val. */
    method Put(k: Key, val: Bytes)
      requires Healthy() && deriveCnt >= 1
      modifies this`scratchPad
      ensures Healthy() && Stack() == OnTop(old(Stack()), PutLayer(Top(old(Stack())), Raw(k), val))
    {
      Shape();
      KeyedPad();
      ParseRaw(k);
      SetPad(scratchPad[Raw(k) := val]);
    }

    /** The inner loop of MergeTo: the entries of one pad are copied into another, in any order. */
    static method CopyPad(from: Pad, to: Pad) returns (r: Pad)
      ensures r == to + from
    {
      r := to;
      var keys := from.Keys;
      while keys != {}
        invariant keys <= from.Keys
        invariant r == to + map k | k in from.Keys - keys :: from[k]
      {
        var k :| k in keys;
        r := r[k := from[k]];
        keys := keys - {k};
      }
      assert (map k | k in from.Keys - keys :: from[k]) == from;
    }

    /** One round of MergeTo: this layer's pad goes into the parent's. */
    method MergeDown() returns (parentState: OverlayState)
      requires Healthy() && deriveCnt >= 2
      modifies parent`scratchPad
      ensures parentState == parent && parentState.Healthy() && parentState.Line() == ancestors
      ensures parentState.Stack() == MergeOne(old(Stack()))
    {
      Shape();
      ParentHealthy();
      KeyedPad();
      parentState := parent;
      parentState.Shape();
      parentState.KeyedPad();
      hide OverlayState.Healthy, Parse;
      ghost var under := parentState.Stack();
      assert parentState.scratchPad == Top(under).pad;
      var merged := CopyPad(scratchPad, parentState.scratchPad);
      parentState.SetPad(merged);
    }

    method SetPad(pad: Pad)
      requires Healthy() && deriveCnt >= 1
      requires forall x :: x in pad ==> Parse(x).Some?
      modifies this`scratchPad
      ensures Healthy() && scratchPad == pad
      ensures Stack() == OnTop(old(Stack()), Top(old(Stack())).(pad := pad))
    {
      hide OverlayState.Healthy, Parse;
      Shape();
      scratchPad := pad;
      OnlyTopChanged();
    }

    /** s.txLogs[s.currentTxHash] = append(s.txLogs[s.currentTxHash], log). */
    method AppendLog(log: Log)
      requires Healthy() && deriveCnt >= 1
      modifies this`txLogs
      ensures Healthy() && Stack() == OnTop(old(Stack()), LogLayer(Top(old(Stack())), log))
    {
      Shape();
      KeyedPad();
      hide OverlayState.Healthy, Parse;
      txLogs := txLogs[currentTxHash := LogsAt(txLogs, currentTxHash) + [log]];
      OnlyTopChanged();
    }

    method FileReceipt(txHash: TxHash, r: Receipt)
      requires Healthy() && deriveCnt >= 1
      modifies this`receipts
      ensures Healthy() && Stack() == OnTop(old(Stack()), ReceiptLayer(Top(old(Stack())), txHash, r))
    {
      Shape();
      KeyedPad();
      hide OverlayState.Healthy, Parse;
      receipts := receipts[txHash := r];
      OnlyTopChanged();
    }

    method StartTx(txHash: TxHash)
      requires Healthy() && deriveCnt >= 1
      modifies this`currentTxHash
      ensures Healthy() && Stack() == OnTop(old(Stack()), Top(old(Stack())).(cur := txHash))
    {
      Shape();
      KeyedPad();
      hide OverlayState.Healthy, Parse;
      currentTxHash := txHash;
      OnlyTopChanged();
    }

    lemma LineLayers(state: OverlayState)
      requires state.ancestors == Line()
      ensures state.Stack() == Stack() + [state.Val()]
    {
      forall i | 0 <= i < |ancestors| ensures state.Stack()[i] == Stack()[i] {
        assert state.Line()[i + 1] == Line()[i + 1];
      }
    }

    lemma ParentLine()
      requires Linked() && parent != null
      ensures parent.Linked() && parent.Line() == ancestors && parent.RootState() == RootState()
      ensures Line()[|ancestors|] == this && this !in ancestors && RootState() in ancestors
    {
      var n := |ancestors| - 1;
      assert n >= 0 && parent == ancestors[n] && parent.ancestors == ancestors[..n];
      hide OverlayState.Sound;
      assert parent.ancestors + [parent] == ancestors;
      assert ancestors[n].Sound();
      forall i | 0 <= i < |parent.ancestors|
        ensures parent.ancestors[i].Sound() && parent.ancestors[i].ancestors == parent.ancestors[..i]
      {
        assert parent.ancestors[i] == ancestors[i];
        assert ancestors[i].ancestors == ancestors[..i];
      }
      forall i | 0 <= i < |ancestors| ensures ancestors[i] != this {
        assert |ancestors[i].ancestors| == i;
      }
    }

    lemma ParentStack()
      requires Linked() && parent != null
      ensures Stack() == parent.Stack() + [Val()]
    {
      ParentLine();
      parent.LineLayers(this);
    }

    /** The layers of one line are different objects: each knows its own depth. */
    lemma LineDistinct(i: nat, j: nat)
      requires Linked() && i < j < |Line()|
      ensures Line()[i] != Line()[j] && Line()[i].deriveCnt == i
    {
      assert |ancestors[i].ancestors| == i;
      if j < |ancestors| {
        assert |ancestors[j].ancestors| == j;
      }
    }

    lemma RootNotAbove()
      requires Linked()
      ensures RootState() !in Above()
      ensures RootState().parent == null && RootState().deriveCnt == 0 && RootState().Linked()
      ensures RootState().ancestors == []
    {
      forall i | 1 <= i < |Line()| ensures Line()[i] != RootState() {
        LineDistinct(0, i);
      }
    }

    /** loadState: one request through the batching server. */
    method LoadState(account: Address, slot: Hash) returns (value: Hash)
      ensures value == Fetched(upstream, bn, Slot(account, slot))
    {
      value := upstream.storage(bn, account, slot);
    }

    /** loadAccount: the server notes the account as accessed before it fetches. */
    method LoadAccount(account: Address) returns (fetched: Account)
      modifies this`accessedAccounts
      ensures fetched == upstream.account(bn, account)
      ensures accessedAccounts == old(accessedAccounts) + {account}
    {
      accessedAccounts := accessedAccounts + {account};
      fetched := upstream.account(bn, account);
    }

    /** Filing a fetched value that was missing keeps the view and the track. */
    lemma Filed(k: ReadKey)
      requires Coherent() && Tracks(scratchPad, accessedAccounts)
      requires Raw(k) !in scratchPad && (k.Slot? || k.account in accessedAccounts)
      ensures var pad := scratchPad[Raw(k) := Fetched(upstream, bn, k)];
              Tracks(pad, accessedAccounts) && forall j: ReadKey :: Answers(pad, upstream, bn, view, j)
    {
      hide Raw, Fetched;
      var pad := scratchPad[Raw(k) := Fetched(upstream, bn, k)];
      forall j: ReadKey ensures Answers(pad, upstream, bn, view, j) {
        assert Answers(scratchPad, upstream, bn, view, j);
        RawInjective(j, k);
      }
      forall j: ReadKey ensures Raw(j) == Raw(k) <==> j == k {
        RawInjective(j, k);
      }
    }

    /** Files one field of a fetched account unless the root already has it. */
    method FileIfAbsent(k: ReadKey, fetched: Account)
      requires !k.Slot? && fetched == upstream.account(bn, k.account)
      requires Coherent() && Tracks(scratchPad, accessedAccounts) && k.account in accessedAccounts
      modifies this`scratchPad
      ensures Coherent() && Tracks(scratchPad, accessedAccounts)
      ensures scratchPad == FillOne(old(scratchPad), upstream, k, fetched)
    {
      hide Raw, Answers;
      if Raw(k) !in scratchPad {
        Filed(k);
        scratchPad := scratchPad[Raw(k) := AccountEntry(upstream, fetched, k)];
      }
    }

    /** Files what was fetched for an account, but for the fields the root already has. */
    method FileFetched(a: Address, fetched: Account)
      requires fetched == upstream.account(bn, a)
      requires Coherent() && Tracked() && a in accessedAccounts
      modifies this`scratchPad
      ensures Coherent() && Tracked()
      ensures SlotRequests(scratchPad) == old(SlotRequests(scratchPad))
      ensures forall k: ReadKey :: k.account == a && !k.Slot? ==> Raw(k) in scratchPad
      ensures forall x :: x in old(scratchPad) ==> x in scratchPad && scratchPad[x] == old(scratchPad)[x]
    {
      hide Raw, Answers, OverlayState.Coherent, Tracks, Whole, FillOne, SlotRequests;
      ghost var pad := scratchPad;
      FileIfAbsent(Balance(a), fetched);
      FileIfAbsent(Nonce(a), fetched);
      FileIfAbsent(Code(a), fetched);
      FileIfAbsent(CodeHash(a), fetched);
      FillKeepsWhole(pad, upstream, a, fetched);
      FillKeepsSlots(pad, upstream, a, fetched);
    }

    /** get at the root: the cache answers, or is filled first. Entries already there stay. */
    method GetAtRoot(k: ReadKey) returns (res: Bytes)
      requires Coherent() && Tracked()
      modifies this`scratchPad, this`accessedAccounts
      ensures res == view(k)
      ensures Coherent() && Tracked()
      ensures forall x :: x in old(scratchPad) ==> x in scratchPad && scratchPad[x] == old(scratchPad)[x]
      ensures k.Slot? ==> accessedAccounts == old(accessedAccounts)
      ensures !k.Slot? ==> Grew({k.account}) && k.account in accessedAccounts
    {
      hide Raw, SlotRequests;
      assert Answers(scratchPad, upstream, bn, view, k);
      if Raw(k) in scratchPad {
        return scratchPad[Raw(k)];
      }
      if k.Slot? {
        res := LoadState(k.account, k.slot);
        Filed(k);
        SlotKeepsWhole(scratchPad, upstream, k, res);
        scratchPad := scratchPad[Raw(k) := res];
      } else {
        var fetched := LoadAccount(k.account);
        FileFetched(k.account, fetched);
        assert Answers(scratchPad, upstream, bn, view, k);
        res := scratchPad[Raw(k)];
      }
    }

    /** get: the nearest layer that holds the key, else the root, which fetches what it lacks. Only
        the root's cache can change, and it only gains entries. */
    method Get(k: ReadKey) returns (res: Bytes)
      requires Healthy() && RootState().Coherent()
      modifies RootState()`scratchPad, RootState()`accessedAccounts
      ensures res == Walk(Base(), Stack(), k)
      ensures Healthy() && RootState().Coherent()
      ensures forall x :: x in old(RootState().scratchPad) ==>
        x in RootState().scratchPad && RootState().scratchPad[x] == old(RootState().scratchPad)[x]
      ensures Stack() == old(Stack())
      ensures RootState().Kept()
      ensures !k.Slot? ==> RootState().Grew({k.account})
      ensures !k.Slot? && (forall i :: 0 <= i < |Stack()| ==> Raw(k) !in Stack()[i].pad) ==>
        k.account in RootState().accessedAccounts
      decreases deriveCnt
    {
      hide Raw, Parse, SlotRequests;
      Shape();
      if parent == null {
        res := GetAtRoot(k);
      } else {
        ParentHealthy();
        if Raw(k) in scratchPad {
          return scratchPad[Raw(k)];
        }
        res := parent.Get(k);
        assert Stack()[..|Stack()| - 1] == parent.Stack();
      }
    }

    method GetRootState() returns (root: OverlayState)
      requires Healthy()
      ensures root == RootState()
    {
      root := this;
      while root.parent != null
        invariant root.Linked() && root.RootState() == RootState()
        decreases root.deriveCnt
      {
        root.ParentLine();
        root := root.parent;
      }
    }
  }
}
