/** State overrides (mferstate/overlaystatedb.go, GetStateDiff): what a diff says and what applying
    it to the upstream chain gives back. */
module StateDiff {
  import opened Words
  import opened Keys
  import opened Upstream
  import opened Layers

  datatype Override = Override(
    nonce: Option<nat>, code: Option<Bytes>, balance: Option<nat>, stateDiff: Option<map<Hash, Hash>>)

  type StateOverride = map<Address, Override>

  const UNTOUCHED := Override(None, None, None, None)

  /** What the switch in the loop does to the override of the account of key k, which holds val. */
  function Amended(o: Override, k: Key, val: Bytes): Override {
    match k
    case Balance(_) => o.(balance := Some(ToNat(val)))
    case Nonce(_) => o.(nonce := Some(NonceOf(val)))
    case Code(_) => o.(code := Some(val))
    case Slot(_, slot) =>
      var slots := if o.stateDiff.Some? then o.stateDiff.value else map[];
      o.(stateDiff := Some(slots[slot := FitRight(val, 32)]))
    case CodeHash(_) => o
    case Suicide(_) => o
  }

  function Entry(diff: StateOverride, a: Address): Override {
    if a in diff then diff[a] else UNTOUCHED
  }

  /** One round of the loop over the merged scratch pad. */
  function Visit(diff: StateOverride, k: Key, val: Bytes): StateOverride {
    diff[k.account := Amended(Entry(diff, k.account), k, val)]
  }

  function SlotOf(o: Override, slot: Hash): Option<Hash> {
    if o.stateDiff.Some? && slot in o.stateDiff.value then Some(o.stateDiff.value[slot]) else None
  }

  function At(view: Pad, k: Key): Option<Bytes> {
    if Raw(k) in view then Some(view[Raw(k)]) else None
  }

  lemma AtPut(view: Pad, k: Key, val: Bytes, i: Key)
    ensures At(view[Raw(k) := val], i) == if i == k then Some(val) else At(view, i)
  {
    RawInjective(k, i);
  }

  function Decoded<T>(stored: Option<Bytes>, decode: Bytes -> T): Option<T> {
    if stored.Some? then Some(decode(stored.value)) else None
  }

  function ToHash(b: Bytes): Hash {
    FitRight(b, 32)
  }

  ghost predicate FieldsMatch(view: Pad, a: Address, o: Override) {
    && o.balance == Decoded(At(view, Balance(a)), ToNat)
    && o.nonce == Decoded(At(view, Nonce(a)), NonceOf)
    && o.code == At(view, Code(a))
  }

  ghost predicate SlotsMatch(view: Pad, a: Address, o: Override) {
    forall slot: Hash :: SlotOf(o, slot) == Decoded(At(view, Slot(a, slot)), ToHash)
  }

  /** The override of one account says exactly what the pad holds under that account's keys. */
  ghost predicate AccountMatches(view: Pad, a: Address, o: Override) {
    FieldsMatch(view, a, o) && SlotsMatch(view, a, o)
  }

  /** A diff describes a pad: account by account, and with an entry for every account that occurs. */
  ghost predicate Describes(diff: StateOverride, view: Pad) {
    && (forall a: Address :: AccountMatches(view, a, Entry(diff, a)))
    && (forall k: Key :: Raw(k) in view ==> k.account in diff)
    && (forall a: Address :: a in diff ==> exists k: Key :: k.account == a && Raw(k) in view)
  }

  lemma VisitFields(o: Override, view: Pad, k: Key, val: Bytes, a: Address)
    requires FieldsMatch(view, a, o)
    ensures FieldsMatch(view[Raw(k) := val], a, if a == k.account then Amended(o, k, val) else o)
  {
    AtPut(view, k, val, Balance(a));
    AtPut(view, k, val, Nonce(a));
    AtPut(view, k, val, Code(a));
  }

  lemma VisitSlots(o: Override, view: Pad, k: Key, val: Bytes, a: Address)
    requires SlotsMatch(view, a, o)
    ensures SlotsMatch(view[Raw(k) := val], a, if a == k.account then Amended(o, k, val) else o)
  {
    var o' := if a == k.account then Amended(o, k, val) else o;
    forall slot: Hash
      ensures SlotOf(o', slot) == Decoded(At(view[Raw(k) := val], Slot(a, slot)), ToHash)
    {
      AtPut(view, k, val, Slot(a, slot));
      assert SlotOf(o, slot) == Decoded(At(view, Slot(a, slot)), ToHash);
    }
  }

  /** Each round extends the description by the key it visits, in whatever order the keys come. */
  lemma VisitDescribes(diff: StateOverride, view: Pad, k: Key, val: Bytes)
    requires Describes(diff, view) && Raw(k) !in view
    ensures Describes(Visit(diff, k, val), view[Raw(k) := val])
  {
    var diff', view' := Visit(diff, k, val), view[Raw(k) := val];
    forall a: Address ensures AccountMatches(view', a, Entry(diff', a)) {
      VisitFields(Entry(diff, a), view, k, val, a);
      VisitSlots(Entry(diff, a), view, k, val, a);
    }
    forall i: Key | Raw(i) in view' ensures i.account in diff' {
      RawInjective(i, k);
    }
    forall a: Address | a in diff' ensures exists i: Key :: i.account == a && Raw(i) in view' {
      if a == k.account {
        assert Raw(k) in view';
      } else {
        var i: Key :| i.account == a && Raw(i) in view;
        assert Raw(i) in view';
      }
    }
  }

  // ----- Applying a diff to the upstream chain -----

  function BalanceWith(chain: Chain, bn: nat, diff: StateOverride, a: Address): nat {
    if Entry(diff, a).balance.Some? then Entry(diff, a).balance.value else chain.account(bn, a).balance
  }

  function NonceWith(chain: Chain, bn: nat, diff: StateOverride, a: Address): nat {
    if Entry(diff, a).nonce.Some? then Entry(diff, a).nonce.value else chain.account(bn, a).nonce
  }

  function CodeWith(chain: Chain, bn: nat, diff: StateOverride, a: Address): Bytes {
    if Entry(diff, a).code.Some? then Entry(diff, a).code.value else chain.account(bn, a).code
  }

  function StorageWith(chain: Chain, bn: nat, diff: StateOverride, a: Address, slot: Hash): Hash {
    if SlotOf(Entry(diff, a), slot).Some? then SlotOf(Entry(diff, a), slot).value
    else chain.storage(bn, a, slot)
  }

  /** State diff round trip: the upstream chain with the diff applied has the balance, code and
      storage that the current view has, for every account and slot; and its nonce, exactly unless
      the account's nonce was never written and the upstream one is over 2^63. */
  lemma DiffRoundTrip(chain: Chain, bn: nat, f: Flat, diff: StateOverride, a: Address, slot: Hash)
    requires Describes(diff, f.view)
    ensures var root := RootAt(chain, bn);
            && BalanceWith(chain, bn, diff, a) == ToNat(Read(root, f, Balance(a)))
            && CodeWith(chain, bn, diff, a) == Read(root, f, Code(a))
            && StorageWith(chain, bn, diff, a, slot) == FitRight(Read(root, f, Slot(a, slot)), 32)
            && (NonceWith(chain, bn, diff, a) == NonceOf(Read(root, f, Nonce(a))) <==>
                  (Raw(Nonce(a)) in f.view || chain.account(bn, a).nonce <= TWO_63))
  {
    hide Raw, ToNat, BigEndian;
    assert AccountMatches(f.view, a, Entry(diff, a));
    BigEndianRoundTrip(chain.account(bn, a).balance);
    NonceSurvives(chain.account(bn, a).nonce);
    FitExact(chain.storage(bn, a, slot), 32);
    assert SlotOf(Entry(diff, a), slot) == Decoded(At(f.view, Slot(a, slot)), ToHash);
  }
}
