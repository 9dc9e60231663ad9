/** mferstate/overlaystatedb.go: the state database, a pointer to the current layer. Every method
    is tied to the value it gives the stack of layers, for which Layers proves the specification. */
module OverlayDB {
  import opened Words
  import opened Sequences
  import opened Keys
  import opened Upstream
  import opened Layers
  import opened Overlay
  import opened StateDiff
  import B = Balances
  import E = Execution
  import F = KeyFile
  import opened RootCache
  import N = BatchFetch

  class OverlayStateDB {
    var state: OverlayState
    var refundGas: nat
    /** The contents of the key-cache file. */
    var keyFile: string
    const maxKeyCache: nat
    /** The depth this database was created at: revisions above it are its own. */
    ghost var base: nat

    ghost predicate Valid()
      reads this, state.Line()
    {
      state.Healthy() && 1 <= base <= state.deriveCnt
    }

    /** Valid, and reads of the root return its view. */
    ghost predicate Ready()
      reads this, state.Line()
    {
      Valid() && state.RootState().Coherent()
    }

    ghost function Stack(): seq<Layer>
      reads this, state.Above()
    {
      state.Stack()
    }

    /** What the database answers: the layers collapsed into one flat state. */
    ghost function View(): Flat
      reads this, state.Above()
    {
      Flatten(Stack())
    }

    ghost function Base(): Root
      reads this, state.RootState()
    {
      state.Base()
    }

    /** NewOverlayStateDB: a root and one layer to protect it. */
    constructor (upstream: Chain, bn: nat, keyFile: string, maxKeyCache: nat)
      ensures Ready() && fresh(state) && fresh(state.RootState())
      ensures Stack() == [Derived(NO_TX)] && base == 1 && refundGas == 0
      ensures this.keyFile == keyFile && this.maxKeyCache == maxKeyCache
      ensures state.RootState().upstream == upstream && state.RootState().bn == bn && Base() == RootAt(upstream, bn)
    {
      hide Raw, Parse, Flatten, OverlayState.Tracked, OverlayState.Coherent, RootAt;
      var root := new OverlayState.NewRoot(upstream, bn);
      var first := root.Derive();
      state, refundGas, base := first, 0, 1;
      this.keyFile, this.maxKeyCache := keyFile, maxKeyCache;
      new;
      state.Shape();
    }

    /** Another database over an existing layer, as Clone and CloneFromRoot build it. */
    constructor Over(s: OverlayState)
      requires s.Healthy() && s.deriveCnt >= 1
      ensures Valid() && state == s && base == s.deriveCnt && refundGas == 0
    {
      state, refundGas, base, keyFile, maxKeyCache := s, 0, s.deriveCnt, "", 0;
    }

    /** Reads go through the layers to the root, where only the cache may grow. */
    method Get(k: ReadKey) returns (val: Bytes)
      requires Ready()
      modifies state.RootState()`scratchPad, state.RootState()`accessedAccounts
      ensures Ready() && Stack() == old(Stack()) && Base() == old(Base())
      ensures val == Read(Base(), View(), k)
      ensures state.RootState().Kept()
      ensures !k.Slot? ==> state.RootState().Grew({k.account})
      ensures !k.Slot? && Raw(k) !in View().view ==> k.account in state.RootState().accessedAccounts
    {
      hide Raw, OverlayState.Healthy, OverlayState.Coherent, Flatten, Walk, Read, SlotRequests;
      state.Shape();
      forall i | 0 <= i < |Stack()| && Raw(k) in Stack()[i].pad ensures Raw(k) in View().view {
        ViewHolds(Stack(), i, Raw(k));
      }
      val := state.Get(k);
      WalkIsRead(Base(), Stack(), k);
    }

    // ----- Accounts and storage -----

    method GetBalance(account: Address) returns (balance: nat)
      requires Ready()
      modifies state.RootState()`scratchPad, state.RootState()`accessedAccounts
      ensures Ready() && Stack() == old(Stack()) && Base() == old(Base())
      ensures balance == B.BalanceOf(Base(), View(), account)
      ensures state.RootState().Kept() && state.RootState().Grew({account})
      ensures Raw(Balance(account)) !in View().view ==> account in state.RootState().accessedAccounts
    {
      hide SlotRequests;
      var bal := Get(Balance(account));
      balance := ToNat(bal);
    }

    method AddBalance(account: Address, delta: nat)
      requires Ready()
      modifies state`scratchPad, state.RootState()`scratchPad, state.RootState()`accessedAccounts
      ensures Ready() && Base() == old(Base())
      ensures Stack() == B.AddBalance(Base(), old(Stack()), account, delta)
      ensures state.RootState().Kept() && state.RootState().Grew({account})
      ensures Raw(Balance(account)) !in old(View()).view ==> account in state.RootState().accessedAccounts
    {
      hide Raw, Flatten, BigEndian, ToNat, OverlayState.Healthy, OverlayState.Coherent, SlotRequests;
      state.Shape();
      ghost var up, ls := Base(), Stack();
      WalkIsRead(up, ls, Balance(account));
      var balance := GetBalance(account);
      state.Put(Balance(account), BigEndian(balance + delta));
      assert Stack() == B.AddBalance(up, ls, account, delta);
    }

    /** The magnitude of the difference is stored; Balances tells when that is the difference. */
    method SubBalance(account: Address, delta: nat)
      requires Ready()
      modifies state`scratchPad, state.RootState()`scratchPad, state.RootState()`accessedAccounts
      ensures Ready() && Base() == old(Base())
      ensures Stack() == B.SubBalance(Base(), old(Stack()), account, delta)
    {
      hide Raw, Flatten, BigEndian, ToNat, OverlayState.Healthy, OverlayState.Coherent;
      state.Shape();
      ghost var up, ls := Base(), Stack();
      WalkIsRead(up, ls, Balance(account));
      var balance := GetBalance(account);
      state.Put(Balance(account), BigEndian(Abs(balance - delta)));
      assert Stack() == B.SubBalance(up, ls, account, delta);
    }

    /** All other setters write one entry of the current layer. */
    method Set(k: Key, val: Bytes)
      requires Ready()
      modifies state`scratchPad
      ensures Ready() && Base() == old(Base())
      ensures Stack() == OnTop(old(Stack()), PutLayer(Top(old(Stack())), Raw(k), val))
      ensures View() == PutFlat(old(View()), Raw(k), val)
    {
      hide Raw, Flatten, OverlayState.Healthy, OverlayState.Coherent;
      state.Shape();
      FlattenPut(Stack(), Raw(k), val);
      state.Put(k, val);
    }

    method SetBalance(account: Address, balance: nat)
      requires Ready()
      modifies state`scratchPad
      ensures Ready() && View() == PutFlat(old(View()), Raw(Balance(account)), BigEndian(balance))
      ensures B.BalanceOf(Base(), View(), account) == balance
    {
      BigEndianRoundTrip(balance);
      Set(Balance(account), BigEndian(balance));
    }

    method GetNonce(account: Address) returns (nonce: nat)
      requires Ready()
      modifies state.RootState()`scratchPad, state.RootState()`accessedAccounts
      ensures Ready() && Stack() == old(Stack())
      ensures nonce == NonceOf(Read(Base(), View(), Nonce(account)))
    {
      var stored := Get(Nonce(account));
      nonce := NonceOf(stored);
    }

    /** The stored nonce reads back as itself exactly up to 2^63. */
    method SetNonce(account: Address, nonce: Nonce64)
      requires Ready()
      modifies state`scratchPad
      ensures Ready() && View() == PutFlat(old(View()), Raw(Nonce(account)), NonceBytes(nonce))
      ensures NonceOf(Read(Base(), View(), Nonce(account))) == nonce <==> nonce <= TWO_63
    {
      NonceSurvives(nonce);
      Set(Nonce(account), NonceBytes(nonce));
    }

    method GetCode(account: Address) returns (code: Bytes)
      requires Ready()
      modifies state.RootState()`scratchPad, state.RootState()`accessedAccounts
      ensures Ready() && Stack() == old(Stack())
      ensures code == Read(Base(), View(), Code(account))
    {
      code := Get(Code(account));
    }

    /** Unless a layer has an entry of its own for the code or its hash, the two that are read belong
        together, be they cached, stale or just fetched. */
    method GetCodeHash(account: Address) returns (codeHash: Hash)
      requires Ready()
      modifies state.RootState()`scratchPad, state.RootState()`accessedAccounts
      ensures Ready() && Stack() == old(Stack()) && Base() == old(Base())
      ensures codeHash == FitRight(Read(Base(), View(), CodeHash(account)), 32)
      ensures Raw(Code(account)) !in View().view && Raw(CodeHash(account)) !in View().view ==>
                var code := Read(Base(), View(), Code(account));
                codeHash == if code == [] then Zeros(32) else state.RootState().upstream.keccak(code)
    {
      hide Raw, Flatten, OverlayState.Healthy, OverlayState.Coherent;
      state.HashesBelong();
      var stored := Get(CodeHash(account));
      codeHash := FitRight(stored, 32);
    }

    /** Suicide: marks the account in the current layer. */
    method Suicide(account: Address) returns (done: bool)
      requires Ready()
      modifies state`scratchPad
      ensures Ready() && Base() == old(Base()) && done
      ensures View() == PutFlat(old(View()), Raw(Key.Suicide(account)), [1])
      ensures forall a: Address :: Suicided(View().top, a) <==> a == account || Suicided(old(View()).top, a)
      ensures forall k: ReadKey :: Read(Base(), View(), k) == Read(Base(), old(View()), k)
    {
      hide Raw, Flatten, OverlayState.Healthy, OverlayState.Coherent, Suicided, Read;
      SuicideMarks(Base(), View(), account);
      Set(Key.Suicide(account), [1]);
      done := true;
    }

    method GetState(account: Address, slot: Hash) returns (value: Hash)
      requires Ready()
      modifies state.RootState()`scratchPad, state.RootState()`accessedAccounts
      ensures Ready() && Stack() == old(Stack())
      ensures value == FitRight(Read(Base(), View(), Slot(account, slot)), 32)
    {
      var stored := Get(Slot(account, slot));
      value := FitRight(stored, 32);
    }

    /** Only the current layer is asked. */
    method HasSuicided(account: Address) returns (dead: bool)
      requires Valid()
      ensures dead == Suicided(View().top, account)
    {
      state.Shape();
      TopOfFlat(Stack());
      dead := Raw(Key.Suicide(account)) in state.scratchPad && state.scratchPad[Raw(Key.Suicide(account))] == [1];
    }

    /** InitFakeAccounts. */
    method InitFakeAccounts(fakes: seq<(Address, nat)>)
      requires Ready()
      modifies state`scratchPad, state.RootState()`scratchPad, state.RootState()`accessedAccounts
      ensures Ready() && Base() == old(Base()) && |Stack()| == old(|Stack()|)
      ensures View() == E.Funded(Base(), fakes, old(View()))
      ensures state.RootState().Kept() && state.RootState().Grew(E.FakeAccounts(fakes))
      ensures old(View()) == BLANK ==> E.FakeAccounts(fakes) <= state.RootState().accessedAccounts
    {
      hide Raw, Flatten, BigEndian, ToNat, OverlayState.Healthy, OverlayState.Coherent, SlotRequests;
      ghost var up, f := Base(), View();
      state.Shape();
      ghost var root := state.RootState();
      for i := 0 to |fakes|
        invariant Ready() && Base() == up && |Stack()| == old(|Stack()|)
        invariant View() == E.Funded(up, fakes[..i], f)
        invariant root.Kept() && root.Grew(E.FakeAccounts(fakes[..i]))
        invariant f == BLANK ==> E.FakeAccounts(fakes[..i]) <= root.accessedAccounts
      {
        ghost var ls := Stack();
        FundOne(up, ls, fakes, i, f);
        E.OneMoreFake(up, fakes, i);
        AddBalance(fakes[i].0, fakes[i].1);
      }
      assert fakes[..|fakes|] == fakes;
    }

    static lemma FundOne(up: Root, ls: seq<Layer>, fakes: seq<(Address, nat)>, i: nat, f: Flat)
      requires ls != [] && i < |fakes| && Flatten(ls) == E.Funded(up, fakes[..i], f)
      ensures Flatten(B.AddBalance(up, ls, fakes[i].0, fakes[i].1)) == E.Funded(up, fakes[..i + 1], f)
    {
      hide Raw, Flatten, BigEndian, ToNat;
      assert fakes[..i + 1][..i] == fakes[..i];
      WalkIsRead(up, ls, Balance(fakes[i].0));
      var post := ToNat(Walk(up, ls, Balance(fakes[i].0))) + fakes[i].1;
      FlattenPut(ls, Raw(Balance(fakes[i].0)), BigEndian(post));
    }

    // ----- Snapshots -----

    /** The revision number is the depth of the layer that is pushed. */
    method Snapshot() returns (revisionID: nat)
      requires Valid()
      modifies this`state
      ensures Valid() && fresh(state) && state.ancestors == old(state.Line())
      ensures Stack() == Pushed(old(Stack()))
      ensures revisionID == |Stack()|
    {
      hide OverlayState.Healthy;
      state.Shape();
      var newOverlayState := state.Derive();
      newOverlayState.Shape();
      state := newOverlayState;
      revisionID := newOverlayState.deriveCnt;
    }

    /** The walk down the parents stops at the right layer because the depth counter is the
        distance to the root. */
    method RevertToSnapshot(revisionID: nat)
      requires Valid() && Live(revisionID, base, |Stack()|)
      modifies this`state
      ensures Valid() && Stack() == old(Stack())[..revisionID - 1]
      ensures state.Line() == old(state.Line())[..revisionID]
    {
      hide OverlayState.Healthy, OverlayState.Stack, OverlayState.Linked, OverlayState.Tracked, Flatten;
      state.Shape();
      var tmpState := Below(revisionID);
      tmpState.Shape();
      LowerOf(tmpState);
      state := tmpState;
    }

    method Below(revisionID: nat) returns (tmpState: OverlayState)
      requires Valid() && 1 <= revisionID <= state.deriveCnt
      ensures tmpState.Healthy() && tmpState.Line() <= state.Line() && tmpState.deriveCnt + 1 == revisionID
    {
      hide OverlayState.Healthy, OverlayState.Stack, OverlayState.Linked, OverlayState.Tracked;
      state.ParentHealthy();
      tmpState := state.parent;
      while tmpState.deriveCnt + 1 != revisionID
        invariant revisionID <= tmpState.deriveCnt + 1 <= state.deriveCnt
        invariant tmpState.Healthy() && tmpState.Line() <= state.Line()
        decreases tmpState.deriveCnt
      {
        tmpState.ParentHealthy();
        tmpState := tmpState.parent;
      }
    }

    lemma LowerOf(s: OverlayState)
      requires state.Healthy() && s.Healthy() && s.Line() <= state.Line()
      ensures s.Stack() == Stack()[..s.deriveCnt] && s.RootState() == state.RootState()
    {
      state.Lower(s);
    }

    // ----- Merging -----

    /** MergeTo: pad by pad into the parent until the target depth. */
    method MergeTo(revisionID: nat)
      requires Valid() && 1 <= revisionID <= |Stack()|
      modifies this`state, this`base, state.Above()
      ensures Valid() && Stack() == Layers.MergeTo(old(Stack()), revisionID)
      ensures state == old(state.Line()[revisionID])
    {
      hide OverlayState.Healthy, OverlayState.Stack, Flatten, Layers.MergeTo, MergeOne;
      state.Shape();
      ghost var top := state;
      var currState: OverlayState := state;
      while currState.deriveCnt != revisionID
        invariant currState.Healthy() && currState.Line() <= top.Line()
        invariant revisionID <= currState.deriveCnt == |currState.Stack()|
        invariant Layers.MergeTo(currState.Stack(), revisionID) == Layers.MergeTo(old(Stack()), revisionID)
        decreases currState.deriveCnt
        modifies top.Above()
      {
        currState.Shape();
        currState.ParentHealthy();
        assert currState.parent == top.Line()[currState.deriveCnt - 1];
        MergeUnfolds(currState.Stack(), revisionID);
        var parentState := currState.MergeDown();
        parentState.Shape();
        currState := parentState;
      }
      currState.Shape();
      MergeUnfolds(currState.Stack(), revisionID);
      state := currState;
      base := if revisionID < base then revisionID else base;
    }

    static lemma MergeUnfolds(ls: seq<Layer>, revisionID: nat)
      requires 1 <= revisionID <= |ls|
      ensures Layers.MergeTo(ls, revisionID) ==
        if |ls| == revisionID then ls else Layers.MergeTo(MergeOne(ls), revisionID)
    {
    }

    // ----- Clones -----

    /** A clone shares every layer below its own. */
    method Clone() returns (cpy: OverlayStateDB)
      requires Valid()
      ensures fresh(cpy) && fresh(cpy.state) && cpy.Valid() && cpy.refundGas == 0
      ensures cpy.state.ancestors == state.Line() && cpy.base == cpy.state.deriveCnt
      ensures cpy.Stack() == Pushed(Stack()) && cpy.state.RootState() == state.RootState()
      ensures Stack() == old(Stack())
    {
      hide OverlayState.Healthy;
      state.Shape();
      var s := state.Derive();
      s.Shape();
      cpy := new OverlayStateDB.Over(s);
    }

    method CloneFromRoot() returns (cpy: OverlayStateDB)
      requires Valid()
      ensures fresh(cpy) && fresh(cpy.state) && cpy.Valid() && cpy.refundGas == 0
      ensures cpy.state.ancestors == [state.RootState()] && cpy.base == 1
      ensures cpy.Stack() == [Derived(NO_TX)] && cpy.state.RootState() == state.RootState()
      ensures Stack() == old(Stack())
    {
      hide OverlayState.Healthy;
      state.RootHealthy();
      var root := state.GetRootState();
      var s := root.Derive();
      s.Shape();
      cpy := new OverlayStateDB.Over(s);
    }

    // ----- Logs and receipts -----

    method StartLogCollection(txHash: TxHash)
      requires Valid()
      modifies state`currentTxHash
      ensures Valid() && Stack() == OnTop(old(Stack()), Top(old(Stack())).(cur := txHash))
      ensures View() == StartFlat(old(View()), txHash)
    {
      hide OverlayState.Healthy, Flatten;
      state.Shape();
      FlattenStart(Stack(), txHash);
      state.StartTx(txHash);
    }

    method AddLog(log: Log)
      requires Valid()
      modifies state`txLogs
      ensures Valid() && Stack() == OnTop(old(Stack()), LogLayer(Top(old(Stack())), log))
      ensures View() == LogFlat(old(View()), log)
    {
      hide OverlayState.Healthy, Flatten;
      state.Shape();
      FlattenLog(Stack(), log);
      state.AppendLog(log);
    }

    method AddReceipt(txHash: TxHash, receipt: Receipt)
      requires Valid()
      modifies state`receipts
      ensures Valid() && Stack() == OnTop(old(Stack()), ReceiptLayer(Top(old(Stack())), txHash, receipt))
      ensures View() == ReceiptFlat(old(View()), txHash, receipt)
    {
      hide OverlayState.Healthy, Flatten;
      state.Shape();
      FlattenReceipt(Stack(), txHash, receipt);
      state.FileReceipt(txHash, receipt);
    }

    /** The loop walks down and prepends, so the result is in emission order. */
    method GetLogs(txHash: TxHash) returns (logs: seq<Log>)
      requires Valid()
      ensures logs == LogsAt(View().logs, txHash)
      ensures Valid() && Stack() == old(Stack())
    {
      hide OverlayState.Healthy, OverlayState.Stack, Flatten, WalkLogs;
      var tmpState: OverlayState? := state;
      logs := [];
      while tmpState != null
        invariant tmpState != null ==> tmpState.Healthy()
        invariant (if tmpState == null then [] else WalkLogs(tmpState.Stack(), txHash)) + logs ==
          WalkLogs(Stack(), txHash)
        decreases if tmpState == null then 0 else tmpState.deriveCnt + 1
      {
        tmpState.LogsHere(txHash);
        if txHash in tmpState.txLogs {
          logs := tmpState.txLogs[txHash] + logs;
        }
        tmpState := tmpState.parent;
      }
      WalkLogsIsFlat(Stack(), txHash);
      state.Untouched();
    }

    /** The nearest receipt, with its logs refreshed. */
    method GetReceipt(txHash: TxHash) returns (receipt: Option<Receipt>)
      requires Valid()
      ensures receipt == ReceiptOf(View(), txHash)
      ensures Valid() && Stack() == old(Stack())
    {
      hide OverlayState.Healthy, Flatten;
      var tmpState: OverlayState := state;
      while tmpState.parent != null
        invariant tmpState.Healthy()
        invariant WalkReceipt(tmpState.Stack(), txHash) == WalkReceipt(Stack(), txHash)
        decreases tmpState.deriveCnt
      {
        tmpState.Shape();
        tmpState.RootDepth();
        tmpState.ParentHealthy();
        assert tmpState.Stack()[..tmpState.deriveCnt - 1] == tmpState.parent.Stack();
        if txHash in tmpState.receipts {
          assert WalkReceipt(tmpState.Stack(), txHash) == Some(tmpState.receipts[txHash]);
          ghost var ls := Stack();
          WalkReceiptIsFlat(ls, txHash);
          var logs := GetLogs(txHash);
          receipt := Some(tmpState.receipts[txHash].(logs := logs));
          state.Untouched();
          return;
        }
        tmpState := tmpState.parent;
      }
      tmpState.Shape();
      tmpState.RootDepth();
      WalkReceiptIsFlat(Stack(), txHash);
      state.Untouched();
      receipt := None;
    }

    // ----- State diff -----

    /** The first value seen for a key, walking down from the current layer, wins. */
    static method MergeUnder(pad: Pad, seen: Pad) returns (r: Pad)
      ensures r == pad + seen
    {
      r := seen;
      var keys := pad.Keys;
      while keys != {}
        invariant keys <= pad.Keys
        invariant r == (map k | k in pad.Keys - keys :: pad[k]) + seen
      {
        var k :| k in keys;
        if k !in seen {
          r := r[k := pad[k]];
        }
        keys := keys - {k};
      }
      assert (map k | k in pad.Keys - keys :: pad[k]) == pad;
    }

    method GetMergedScratchPad() returns (merged: Pad)
      requires Valid()
      ensures merged == View().view
    {
      hide OverlayState.Healthy, Flatten;
      merged := map[];
      var tmpState: OverlayState := state;
      while tmpState.parent != null
        invariant tmpState.Healthy()
        invariant Flatten(tmpState.Stack()).view + merged == View().view
        decreases tmpState.deriveCnt
      {
        tmpState.Shape();
        tmpState.RootDepth();
        tmpState.ParentHealthy();
        ghost var ls, lower := Stack(), tmpState.parent.Stack();
        ghost var under, pad, seen := Flatten(lower).view, tmpState.scratchPad, merged;
        FlattenSnoc(tmpState.parent.Stack(), tmpState.Val());
        assert Flatten(tmpState.Stack()).view == under + pad;
        PadAssociative(under, pad, seen);
        merged := MergeUnder(tmpState.scratchPad, merged);
        assert tmpState.parent.Stack() == lower && Stack() == ls;
        tmpState := tmpState.parent;
      }
      tmpState.Shape();
      tmpState.RootDepth();
      FlattenNothing(tmpState.Stack());
    }

    /** The switch in the loop of GetStateDiff, reading through the cloned database. */
    method OverrideOf(k: Key, o: Override) returns (override: Override)
      requires Ready() && Raw(k) in View().view
      modifies state.RootState()`scratchPad, state.RootState()`accessedAccounts
      ensures Ready() && Stack() == old(Stack())
      ensures override == Amended(o, k, View().view[Raw(k)])
    {
      hide Raw, OverlayState.Healthy, OverlayState.Coherent, Flatten, ToNat, NonceOf;
      override := o;
      match k {
        case Balance(account) =>
          var balance := GetBalance(account);
          override := override.(balance := Some(balance));
        case Nonce(account) =>
          var nonce := GetNonce(account);
          override := override.(nonce := Some(nonce));
        case Code(account) =>
          var code := GetCode(account);
          override := override.(code := Some(code));
        case Slot(account, stateKey) =>
          var stateValue := GetState(account, stateKey);
          var slots := if override.stateDiff.Some? then override.stateDiff.value else map[];
          override := override.(stateDiff := Some(slots[stateKey := stateValue]));
        case CodeHash(_) =>
        case Suicide(_) =>
      }
    }

    /** The loop of GetStateDiff, over the keys in any order. */
    method DiffOf(mergedScratchPad: Pad) returns (accounts: StateOverride)
      requires Ready() && View().view == mergedScratchPad
      requires forall x :: x in mergedScratchPad ==> Parse(x).Some?
      modifies state.RootState()`scratchPad, state.RootState()`accessedAccounts
      ensures Ready() && Stack() == old(Stack())
      ensures Describes(accounts, mergedScratchPad)
    {
      hide Raw, Parse, OverlayState.Healthy, OverlayState.Coherent, Flatten, Describes, Amended;
      ghost var ls := Stack();
      accounts := map[];
      NothingDescribed();
      var keys := mergedScratchPad.Keys;
      assert mergedScratchPad - keys == map[];
      while keys != {}
        invariant keys <= mergedScratchPad.Keys
        invariant Ready() && Stack() == ls
        invariant Describes(accounts, mergedScratchPad - keys)
      {
        var x :| x in keys;
        RawParse(x);
        var k := Parse(x).value;
        var override := OverrideOf(k, Entry(accounts, k.account));
        VisitDescribes(accounts, mergedScratchPad - keys, k, mergedScratchPad[x]);
        accounts := accounts[k.account := override];
        assert (mergedScratchPad - keys)[x := mergedScratchPad[x]] == mergedScratchPad - (keys - {x});
        keys := keys - {x};
      }
      assert mergedScratchPad - {} == mergedScratchPad;
    }

    /** The overrides that turn the upstream chain into the current view. */
    method GetStateDiff() returns (accounts: StateOverride)
      requires Ready()
      modifies state.RootState()`scratchPad, state.RootState()`accessedAccounts
      ensures Ready() && Stack() == old(Stack())
      ensures Describes(accounts, View().view)
    {
      hide Raw, Parse, OverlayState.Healthy, OverlayState.Coherent, OverlayState.Stack, Flatten, Describes;
      var mergedScratchPad := GetMergedScratchPad();
      state.Shape();
      ViewKeyed();
      var clonedState := CloneFromRoot();
      clonedState.state.Shape();
      clonedState.state.SetPad(mergedScratchPad);
      OneLayer(clonedState.Stack(), mergedScratchPad);
      accounts := clonedState.DiffOf(mergedScratchPad);
      state.SharedRoot(clonedState.state);
    }

    lemma ViewKeyed()
      requires Valid()
      ensures forall x :: x in View().view ==> Parse(x).Some?
    {
      FlatKeyed(Stack());
    }

    static lemma {:induction false} FlatKeyed(ls: seq<Layer>)
      requires OverlayState.WellKeyed(ls)
      ensures forall x :: x in Flatten(ls).view ==> Parse(x).Some?
    {
      hide Parse;
      if ls != [] {
        FlatKeyed(ls[..|ls| - 1]);
      }
    }

    static lemma OneLayer(ls: seq<Layer>, pad: Pad)
      requires |ls| == 1 && ls[0].pad == pad
      ensures Flatten(ls).view == pad
    {
      assert ls[..0] == [];
    }

    static lemma NothingDescribed()
      ensures Describes(map[], map[])
    {
    }

    // ----- Refreshing the root -----

    /** The accounts remembered by the root, listed in any order. */
    static method Listed(accessed: set<Address>) returns (accounts: seq<Address>)
      ensures (forall a :: a in accounts <==> a in accessed) && |accounts| == |accessed|
    {
      accounts := [];
      var rest := accessed;
      while rest != {}
        invariant rest <= accessed && |accounts| + |rest| == |accessed|
        invariant forall a :: a in accounts <==> a in accessed - rest
      {
        var k :| k in rest;
        accounts, rest := accounts + [k], rest - {k};
      }
    }

    /** The last part of resetScratchPad: refetch every remembered account. */
    method RefetchAccounts(batchSize: nat, accountFails: nat -> bool) returns (outcome: Refresh)
      requires state.Healthy() && state.deriveCnt == 0 && batchSize >= 1
      requires SlotsAgree(state.scratchPad, state.upstream, state.bn)
      modifies state`scratchPad, state`view
      ensures state.Healthy() && state.Coherent()
      ensures outcome ==
        if N.Failures(accountFails, |N.Plan(0, 3 * |state.accessedAccounts|, batchSize)| + 5) > 5 then AccountsFailed
        else Refreshed
      ensures outcome == Refreshed ==> state.view == RootAt(state.upstream, state.bn)
      ensures outcome == AccountsFailed ==> HalfRefreshed(state.view, old(state.scratchPad), state.upstream, state.bn)
      ensures SlotRequests(state.scratchPad) == old(SlotRequests(state.scratchPad))
      ensures outcome == Refreshed ==> AllCached(state.scratchPad, state.accessedAccounts)
    {
      hide SlotRequests, Raw, Parse, Flatten, OverlayState.Healthy, OverlayState.Stack, Agrees, Answers,
        N.Failures, N.Plan, Fetched, FileAccounts, Whole;
      var s := state;
      s.QuietRoot();
      s.RootHealthy();
      var pad := s.scratchPad;
      var accounts := Listed(s.accessedAccounts);
      assert s.accessedAccounts == set a | a in accounts;
      var fetched, results, _, _ :=
        N.LoadAccountBatchRPC(s.upstream, s.bn, accounts, batchSize, accountFails, _ => false);
      if !fetched {
        s.view := Answering(pad, s.upstream, s.bn);
        AnsweringAnswers(pad, s.upstream, s.bn);
        s.RootStaysHealthy();
        return AccountsFailed;
      }
      var last := StoreAccounts(pad, s.upstream, s.bn, accounts, results);
      AccountsKeepWhole(pad, s.upstream, s.bn, accounts);
      AccountsCached(pad, s.upstream, s.bn, accounts);
      forall k: ReadKey
        ensures Answers(last, s.upstream, s.bn, RootAt(s.upstream, s.bn), k)
        ensures Raw(k) in last && !k.Slot? ==> k.account in s.accessedAccounts
      {
        AccountsRefetched(pad, s.upstream, s.bn, accounts, s.accessedAccounts, k);
        AgreeingAnswers(last, s.upstream, s.bn, k);
      }
      s.scratchPad, s.view := last, RootAt(s.upstream, s.bn);
      s.RootStaysHealthy();
      outcome := Refreshed;
    }

    static lemma AnsweringAnswers(pad: Pad, chain: Chain, bn: nat)
      ensures forall k: ReadKey :: Answers(pad, chain, bn, Answering(pad, chain, bn), k)
      ensures SlotsAgree(pad, chain, bn) ==> HalfRefreshed(Answering(pad, chain, bn), pad, chain, bn)
    {
      hide Raw, Fetched;
      if SlotsAgree(pad, chain, bn) {
        forall k: ReadKey | k.Slot? ensures Answering(pad, chain, bn)(k) == Fetched(chain, bn, k) {
          assert Agrees(pad, chain, bn, k);
        }
      }
    }

    /** The first two loops of resetScratchPad: placeholders for the key file's slots, then a request and
        a line for every slot there is a key for. */
    method SeedAndCollect() returns (slots: seq<Bytes>, reqs: seq<(Address, Hash)>, cachedStr: string)
      requires state.Healthy() && state.deriveCnt == 0
      modifies state`scratchPad, state`accessedAccounts
      ensures state.Healthy() && state.Tracked() && state.Quiet()
      ensures state.scratchPad == SeedPad(old(state.scratchPad), F.Seeds(keyFile, maxKeyCache))
      ensures state.accessedAccounts == Remembered(old(state.accessedAccounts), state.scratchPad)
      ensures Lists(reqs, SlotRequests(state.scratchPad)) && |reqs| == |SlotRequests(state.scratchPad)|
      ensures old(state.accessedAccounts) <= state.accessedAccounts
      ensures forall k: ReadKey :: k.Slot? && Raw(k) in state.scratchPad ==> k.account in state.accessedAccounts
      ensures cachedStr == F.Save(slots)
      ensures ListsSlots(slots, old(state.scratchPad), F.Seeds(keyFile, maxKeyCache))
    {
      hide Raw, Parse, Flatten, OverlayState.Healthy, OverlayState.Linked, OverlayState.Stack, Tracks,
        F.Seeds, F.Save, IsSlotKey, ListsSlots, SeedPad, SlotRequests, Whole;
      var s := state;
      s.QuietRoot();
      s.RootHealthy();
      ghost var cached := s.scratchPad;
      var seeded := Seed(s.scratchPad, keyFile, maxKeyCache);
      SeedKeepsTracks(s.scratchPad, keyFile, maxKeyCache, s.accessedAccounts);
      slots, reqs, cachedStr := Collect(seeded);
      Collected(seeded, slots, reqs);
      SeededLists(slots, cached, seeded, F.Seeds(keyFile, maxKeyCache));
      assert (set r | r in reqs :: r.0) == set r | r in SlotRequests(seeded) :: r.0;
      var accessed := s.accessedAccounts + set r | r in reqs :: r.0;
      TracksMore(seeded, s.accessedAccounts, accessed);
      SeedKeepsWhole(s.scratchPad, keyFile, maxKeyCache, s.upstream);
      SlotsRemembered(seeded, s.accessedAccounts);
      s.scratchPad, s.accessedAccounts := seeded, accessed;
      s.RootStaysHealthy();
    }

    /** The third loop, after the slot requests were sent; a failed fetch leaves the pad as it is. */
    method RefetchSlots(reqs: seq<(Address, Hash)>, batchSize: nat, slotFails: nat -> bool) returns (ok: bool)
      requires state.Healthy() && state.Tracked() && state.Quiet() && state.deriveCnt == 0 && batchSize >= 1
      requires Lists(reqs, SlotRequests(state.scratchPad))
      modifies state`scratchPad, state`view
      ensures state.Healthy()
      ensures ok <==> N.Failures(slotFails, |N.Plan(0, |reqs|, batchSize)|) == 0
      ensures ok ==> state.scratchPad == FileSlots(old(state.scratchPad), state.upstream, state.bn, reqs)
      ensures ok ==> SlotsAgree(state.scratchPad, state.upstream, state.bn)
      ensures !ok ==> state.scratchPad == old(state.scratchPad) && state.Coherent()
    {
      hide Raw, Parse, Flatten, Fetched, OverlayState.Healthy, OverlayState.Linked, OverlayState.Stack, Agrees, Answers,
        Tracks, N.Failures, N.Plan, FileSlots, SlotRequests, HalfRefreshed, SlotsAgree, Answering, Whole;
      var s := state;
      var values, calls;
      ok, values, calls := N.LoadStateBatchRPC(s.upstream, s.bn, reqs, batchSize, slotFails, _ => false);
      if !ok {
        s.view := Answering(s.scratchPad, s.upstream, s.bn);
        AnsweringAnswers(s.scratchPad, s.upstream, s.bn);
        s.RootStaysHealthy();
        return;
      }
      var stored := StoreSlots(s.scratchPad, s.upstream, s.bn, reqs, values);
      SlotsRefetched(s.scratchPad, s.upstream, s.bn, reqs, s.accessedAccounts);
      SlotsKeepWhole(s.scratchPad, s.upstream, s.bn, reqs);
      s.scratchPad := stored;
      s.RootStaysHealthy();
    }

    /** resetScratchPad, called while the root is the current layer: seed from the key file, refetch
        every slot, rewrite the file, refetch every remembered account. Nothing is asked of what the
        root has cached. */
    method ResetScratchPad(clearKeyCache: bool, batchSize: nat, slotFails: nat -> bool, accountFails: nat -> bool)
      returns (outcome: Refresh)
      requires state.Healthy() && state.deriveCnt == 0 && batchSize >= 1
      modifies this`keyFile, state`scratchPad, state`accessedAccounts, state`view
      ensures state.Healthy() && state.Coherent()
      ensures outcome == if clearKeyCache then Refreshed else
        RefreshOutcome(old(state.scratchPad), old(state.accessedAccounts), old(keyFile), maxKeyCache, batchSize,
                       slotFails, accountFails)
      ensures outcome == Refreshed ==> state.view == RootAt(state.upstream, state.bn)
      ensures outcome == AccountsFailed ==> HalfRefreshed(state.view, old(state.scratchPad), state.upstream, state.bn)
      ensures outcome == SlotsFailed ==> keyFile == old(keyFile)
      ensures outcome == SlotsFailed ==>
        state.scratchPad == SeedPad(old(state.scratchPad), F.Seeds(keyFile, maxKeyCache))
      ensures clearKeyCache ==> state.scratchPad == map[] && state.accessedAccounts == {} && keyFile == ""
      ensures !clearKeyCache && outcome != SlotsFailed ==> exists slots: seq<Bytes> ::
        keyFile == F.Save(slots) && ListsSlots(slots, old(state.scratchPad), F.Seeds(old(keyFile), maxKeyCache))
      ensures !clearKeyCache && outcome != SlotsFailed ==>
        Names(keyFile, old(state.scratchPad), F.Seeds(old(keyFile), maxKeyCache)) &&
        Prefetched(old(state.scratchPad), old(state.accessedAccounts), state.scratchPad, state.accessedAccounts,
                   F.Seeds(old(keyFile), maxKeyCache))
      ensures outcome == Refreshed ==> AllCached(state.scratchPad, state.accessedAccounts)
    {
      hide Raw, Parse, Flatten, Fetched, OverlayState.Healthy, OverlayState.Linked, OverlayState.Stack, Agrees, Answers,
        F.Seeds, F.Save, N.Failures, N.Plan, IsSlotKey, ListsSlots, SeedPad, FileSlots, SlotRequests, HalfRefreshed,
        SlotsAgree, RootAt, Answering, Tracks, Whole, Remembered, Names, AllCached;
      var s := state;
      s.QuietRoot();
      s.RootHealthy();
      if clearKeyCache {
        s.scratchPad, s.accessedAccounts, keyFile := map[], {}, "";
        s.view := RootAt(s.upstream, s.bn);
        NothingCached(s.upstream, s.bn);
        s.RootStaysHealthy();
        return Refreshed;
      }
      ghost var cached := s.scratchPad;
      var slots, reqs, cachedStr := SeedAndCollect();
      var ok := RefetchSlots(reqs, batchSize, slotFails);
      if !ok {
        return SlotsFailed;
      }
      keyFile := cachedStr;
      SavedNames(slots, cached, F.Seeds(old(keyFile), maxKeyCache));
      SlotsKeepSlots(SeedPad(cached, F.Seeds(old(keyFile), maxKeyCache)), s.upstream, s.bn, reqs);
      outcome := RefetchAccounts(batchSize, accountFails);
      OldAccounts(cached, old(keyFile), maxKeyCache, s.upstream, s.bn, reqs, s.view);
    }

    static lemma NothingCached(chain: Chain, bn: nat)
      ensures Tracks(map[], {}) && Whole(map[], chain) && AllCached(map[], {})
      ensures forall k: ReadKey :: Answers(map[], chain, bn, RootAt(chain, bn), k)
    {
    }

    /** Neither seeding nor storing slots touches what the accounts answer. */
    static lemma OldAccounts(cached: Pad, file: string, max: nat, chain: Chain, bn: nat, reqs: seq<(Address, Hash)>,
                             view: Root)
      ensures HalfRefreshed(view, FileSlots(SeedPad(cached, F.Seeds(file, max)), chain, bn, reqs), chain, bn) ==>
                HalfRefreshed(view, cached, chain, bn)
    {
      hide Raw, Fetched, F.Seeds, SeedPad, FileSlots, Answering;
      var seeded := SeedPad(cached, F.Seeds(file, max));
      if HalfRefreshed(view, FileSlots(seeded, chain, bn, reqs), chain, bn) {
        forall k: ReadKey | !k.Slot? ensures view(k) == Answering(cached, chain, bn)(k) {
          FiledSlots(seeded, chain, bn, reqs, k);
          SeedKeepsAccounts(cached, file, max, chain, bn, k);
        }
      }
    }

    /** The end of InitState: a layer over the root, so that no write reaches it. */
    method Protect()
      requires state.Healthy() && state.deriveCnt == 0
      modifies this`state, this`base
      ensures Valid() && fresh(state) && base == 1 && state.RootState() == old(state)
      ensures Stack() == [Derived(NO_TX)] && View() == BLANK
    {
      hide Raw, Flatten, OverlayState.Healthy, OverlayState.Stack;
      state.Shape();
      state.QuietRoot();
      var s := state.Derive();
      s.Shape();
      OneBlank(s.Stack());
      state := s;
      base := 1;
    }

    /** InitState, also as a retry after one that panicked: back to the root, refresh it if asked, and put a
        protecting layer on top. After a failed account fetch reads see the new slots and the old accounts.
        A failed slot fetch panics with the placeholders in place and leaves the root itself as the current
        layer. */
    method InitState(fetchNewState: bool, clearCache: bool, batchSize: nat,
                     slotFails: nat -> bool, accountFails: nat -> bool)
      returns (outcome: Refresh)
      requires state.Healthy() && batchSize >= 1
      modifies this, state.RootState()
      ensures state.Healthy()
      ensures outcome == if fetchNewState && !clearCache then
        RefreshOutcome(old(state.RootState().scratchPad), old(state.RootState().accessedAccounts), old(keyFile),
                       maxKeyCache, batchSize, slotFails, accountFails)
        else Refreshed
      ensures fetchNewState && clearCache ==>
        state.RootState().scratchPad == map[] && state.RootState().accessedAccounts == {} && keyFile == ""
      ensures state.RootState() == old(state.RootState()) && state.RootState().bn == old(state.RootState().bn)
      ensures refundGas == old(refundGas)
      ensures outcome != SlotsFailed ==> Valid() && fresh(state) && base == 1
      ensures outcome != SlotsFailed ==> Stack() == [Derived(NO_TX)] && View() == BLANK
      ensures fetchNewState && outcome != SlotsFailed ==> Ready()
      ensures fetchNewState && outcome == Refreshed ==>
        Base() == RootAt(state.RootState().upstream, state.RootState().bn)
      ensures outcome == AccountsFailed ==>
        HalfRefreshed(Base(), old(state.RootState().scratchPad), state.RootState().upstream, state.RootState().bn)
      ensures !fetchNewState && old(state.RootState().Coherent()) ==> Ready() && Base() == old(Base())
      ensures !fetchNewState ==>
        keyFile == old(keyFile) && state.RootState().scratchPad == old(state.RootState().scratchPad) &&
        state.RootState().accessedAccounts == old(state.RootState().accessedAccounts)
      ensures fetchNewState && !clearCache && outcome != SlotsFailed ==>
        Names(keyFile, old(state.RootState().scratchPad), F.Seeds(old(keyFile), maxKeyCache)) &&
        Prefetched(old(state.RootState().scratchPad), old(state.RootState().accessedAccounts),
                   state.RootState().scratchPad, state.RootState().accessedAccounts,
                   F.Seeds(old(keyFile), maxKeyCache))
      ensures fetchNewState && outcome == Refreshed ==>
        AllCached(state.RootState().scratchPad, state.RootState().accessedAccounts)
      ensures fetchNewState ==> HashesFit(state.RootState().upstream, Base())
      ensures outcome == SlotsFailed ==>
        state == state.RootState() && state.Coherent() && keyFile == old(keyFile) &&
        state.scratchPad == SeedPad(old(state.RootState().scratchPad), F.Seeds(keyFile, maxKeyCache))
    {
      hide Raw, Flatten, OverlayState.Healthy, OverlayState.Coherent, OverlayState.Stack, OverlayState.Linked,
        HalfRefreshed, SeedPad, RootAt, RefreshOutcome, F.Seeds, Names, HashesFit, Prefetched, AllCached;
      state.RootHealthy();
      state.Shape();
      var rootState := state.GetRootState();
      state := rootState;
      state.RootHealthy();
      state.RootDepth();
      outcome := Refreshed;
      if fetchNewState {
        outcome := ResetScratchPad(clearCache, batchSize, slotFails, accountFails);
        if outcome == SlotsFailed {
          state.HashesBelong();
          return;
        }
      }
      Protect();
      if fetchNewState {
        state.HashesBelong();
      }
    }

    static lemma OneBlank(ls: seq<Layer>)
      requires ls == [Derived(NO_TX)]
      ensures Flatten(ls) == BLANK
    {
      assert ls[..0] == [];
      JoinNothing(map[]);
    }

    method AddRefund(delta: nat)
      modifies this`refundGas
      ensures refundGas == (old(refundGas) + delta) % TWO_64
    {
      refundGas := (refundGas + delta) % TWO_64;
    }

    method SubRefund(delta: nat)
      modifies this`refundGas
      ensures refundGas == (old(refundGas) - delta) % TWO_64
    {
      refundGas := (refundGas - delta) % TWO_64;
    }
  }
}
