/** Refreshing the root scratch pad (mferstate/overlaystatedb.go, resetScratchPad), step by step on
    the value of the pad. */
module RootCache {
  import opened Words
  import opened Sequences
  import opened Keys
  import opened Upstream
  import opened Layers
  import F = KeyFile
  import N = BatchFetch

  /** If the key is cached, its entry equals the upstream chain at the block. */
  ghost predicate Agrees(pad: Pad, chain: Chain, bn: nat, k: ReadKey) {
    Raw(k) in pad ==> pad[Raw(k)] == Fetched(chain, bn, k)
  }

  /** What reads of a root return: the cached entry, stale or not, else what is fetched. */
  function Answering(pad: Pad, chain: Chain, bn: nat): Root {
    (k: ReadKey) => if Raw(k) in pad then pad[Raw(k)] else Fetched(chain, bn, k)
  }

  ghost predicate Answers(pad: Pad, chain: Chain, bn: nat, view: Root, k: ReadKey) {
    view(k) == Answering(pad, chain, bn)(k)
  }

  /** The view that a refresh leaves when the account fetch fails: new slots, old accounts. */
  ghost predicate HalfRefreshed(view: Root, pad: Pad, chain: Chain, bn: nat) {
    forall k: ReadKey :: view(k) == if k.Slot? then Fetched(chain, bn, k) else Answering(pad, chain, bn)(k)
  }

  lemma AgreeingAnswers(pad: Pad, chain: Chain, bn: nat, k: ReadKey)
    requires Agrees(pad, chain, bn, k)
    ensures Answers(pad, chain, bn, RootAt(chain, bn), k)
  {
  }

  /** The account-level keys that are cached belong to remembered accounts. */
  ghost predicate Tracks(pad: Pad, accessed: set<Address>) {
    forall k: ReadKey :: Raw(k) in pad && !k.Slot? ==> k.account in accessed
  }

  /** Code and code hash are cached together, and belong together, from whatever block they are. */
  ghost predicate Whole(pad: Pad, chain: Chain) {
    forall a: Address :: WholeAt(pad, chain, a)
  }

  ghost predicate WholeAt(pad: Pad, chain: Chain, a: Address) {
    && (Raw(Code(a)) in pad <==> Raw(CodeHash(a)) in pad)
    && (Raw(Code(a)) in pad ==>
          pad[Raw(CodeHash(a))] == if pad[Raw(Code(a))] == [] then Zeros(32) else chain.keccak(pad[Raw(Code(a))]))
  }

  /** So they belong together in what is read, too. */
  lemma WholeFits(pad: Pad, chain: Chain, bn: nat)
    requires Whole(pad, chain)
    ensures HashesFit(chain, Answering(pad, chain, bn))
  {
    hide Raw;
    forall a: Address
      ensures var view := Answering(pad, chain, bn);
              view(CodeHash(a)) == if view(Code(a)) == [] then Zeros(32) else chain.keccak(view(Code(a)))
    {
      assert WholeAt(pad, chain, a);
      ReadsOfUpstream(chain, bn, a, ZERO_HASH);
    }
  }

  /** Entries of other keys do not matter. */
  lemma WholeKept(pad: Pad, next: Pad, chain: Chain)
    requires Whole(pad, chain)
    requires forall k: ReadKey :: k.Code? || k.CodeHash? ==>
               (Raw(k) in next <==> Raw(k) in pad) && (Raw(k) in pad ==> next[Raw(k)] == pad[Raw(k)])
    ensures Whole(next, chain)
  {
    hide Raw;
    forall a: Address ensures WholeAt(next, chain, a) {
      assert WholeAt(pad, chain, a);
      var k, h: ReadKey := Code(a), CodeHash(a);
      assert Raw(k) in next <==> Raw(k) in pad;
      assert Raw(h) in next <==> Raw(h) in pad;
    }
  }

  /** How a refresh ends: a failed storage fetch panics, a failed account fetch only stops early. */
  datatype Refresh = Refreshed | SlotsFailed | AccountsFailed

  predicate IsSlotKey(x: Bytes) {
    |x| == 84 && x[..32] == STATE_KEY
  }

  /** Storing what was fetched for one key makes it agree and spoils no other key. */
  lemma PutAgrees(pad: Pad, chain: Chain, bn: nat, k: ReadKey, j: ReadKey)
    ensures Agrees(pad[Raw(k) := Fetched(chain, bn, k)], chain, bn, k)
    ensures Agrees(pad, chain, bn, j) ==> Agrees(pad[Raw(k) := Fetched(chain, bn, k)], chain, bn, j)
    ensures Raw(j) in pad[Raw(k) := Fetched(chain, bn, k)] ==> Raw(j) in pad || j == k
    ensures j != k ==> Answering(pad[Raw(k) := Fetched(chain, bn, k)], chain, bn)(j) == Answering(pad, chain, bn)(j)
  {
    RawInjective(k, j);
  }

  // ----- What the loops do to the value of the pad -----

  /** Placeholders for the seeds. */
  function SeedPad(pad: Pad, seeds: seq<Bytes>): (r: Pad)
    ensures r.Keys == pad.Keys + set x | x in seeds
    ensures forall x :: x in r ==> r[x] == if x in seeds then [] else pad[x]
  {
    map x | x in pad.Keys + (set y | y in seeds) :: if x in seeds then [] else pad[x]
  }

  /** The slots a pad has keys for, as requests. */
  function SlotRequests(pad: Pad): set<(Address, Hash)> {
    set x | x in pad && IsSlotKey(x) :: SlotOfKey(x)
  }

  function SlotOfKey(x: Bytes): (Address, Hash)
    requires IsSlotKey(x)
  {
    (x[32..52], x[52..])
  }

  /** The accounts remembered once the slots of a pad have been collected. */
  function Remembered(accessed: set<Address>, pad: Pad): set<Address> {
    accessed + set r | r in SlotRequests(pad) :: r.0
  }

  /** How a refresh of a root ends, given which of its batch calls fail: one slot request for each slot
      cached or seeded, none of whose calls may fail; three requests for each account remembered. */
  function RefreshOutcome(pad: Pad, accessed: set<Address>, file: string, max: nat, batchSize: nat,
                          slotFails: nat -> bool, accountFails: nat -> bool): Refresh
    requires batchSize >= 1
  {
    var seeded := SeedPad(pad, F.Seeds(file, max));
    if N.Failures(slotFails, |N.Plan(0, |SlotRequests(seeded)|, batchSize)|) != 0 then SlotsFailed
    else if N.Failures(accountFails, |N.Plan(0, 3 * |Remembered(accessed, seeded)|, batchSize)| + 5) > 5
    then AccountsFailed
    else Refreshed
  }

  /** A refresh panics exactly if one of the calls that fetch the slots fails. */
  lemma PanicsExactly(pad: Pad, accessed: set<Address>, file: string, max: nat, batchSize: nat,
                      slotFails: nat -> bool, accountFails: nat -> bool)
    requires batchSize >= 1
    ensures var chunks := N.Plan(0, |SlotRequests(SeedPad(pad, F.Seeds(file, max)))|, batchSize);
            RefreshOutcome(pad, accessed, file, max, batchSize, slotFails, accountFails) == SlotsFailed <==>
            exists c :: 0 <= c < |chunks| && slotFails(c)
  {
    hide SeedPad, F.Seeds, SlotRequests, N.Plan;
    N.NoFailures(slotFails, |N.Plan(0, |SlotRequests(SeedPad(pad, F.Seeds(file, max)))|, batchSize)|);
  }

  /** With every fetch succeeding the refresh goes through. */
  lemma FetchesSucceed(pad: Pad, accessed: set<Address>, file: string, max: nat, batchSize: nat,
                       slotFails: nat -> bool, accountFails: nat -> bool)
    requires batchSize >= 1 && forall c :: !slotFails(c) && !accountFails(c)
    ensures RefreshOutcome(pad, accessed, file, max, batchSize, slotFails, accountFails) == Refreshed
  {
    hide SeedPad, F.Seeds, SlotRequests, N.Plan;
    var seeded := SeedPad(pad, F.Seeds(file, max));
    N.NoFailures(slotFails, |N.Plan(0, |SlotRequests(seeded)|, batchSize)|);
    N.NoFailures(accountFails, |N.Plan(0, 3 * |Remembered(accessed, seeded)|, batchSize)| + 5);
  }

  /** The fetched slots, filed in the order of the requests. */
  function FileSlots(pad: Pad, chain: Chain, bn: nat, reqs: seq<(Address, Hash)>): Pad {
    if reqs == [] then pad
    else
      var (a, slot) := reqs[|reqs| - 1];
      FileSlots(pad, chain, bn, reqs[..|reqs| - 1])[Raw(Slot(a, slot)) := chain.storage(bn, a, slot)]
  }

  /** The four entries of one fetched account. */
  function FileAccount(pad: Pad, chain: Chain, bn: nat, a: Address): Pad {
    var fetched := chain.account(bn, a);
    pad[Raw(Balance(a)) := BigEndian(fetched.balance)][Raw(Nonce(a)) := NonceBytes(fetched.nonce)]
       [Raw(Code(a)) := fetched.code][Raw(CodeHash(a)) := CodeHashOf(chain, fetched.code)]
  }

  function FileAccounts(pad: Pad, chain: Chain, bn: nat, accounts: seq<Address>): Pad {
    if accounts == [] then pad
    else FileAccount(FileAccounts(pad, chain, bn, accounts[..|accounts| - 1]), chain, bn, accounts[|accounts| - 1])
  }

  ghost predicate SlotsAgree(pad: Pad, chain: Chain, bn: nat) {
    forall k: ReadKey :: k.Slot? ==> Agrees(pad, chain, bn, k)
  }

  lemma {:induction false} FiledSlots(pad: Pad, chain: Chain, bn: nat, reqs: seq<(Address, Hash)>, j: ReadKey)
    ensures var r := FileSlots(pad, chain, bn, reqs);
            && (Agrees(pad, chain, bn, j) ==> Agrees(r, chain, bn, j))
            && (j.Slot? && (j.account, j.slot) in reqs ==> Agrees(r, chain, bn, j))
            && (Raw(j) in r ==> Raw(j) in pad || (j.Slot? && (j.account, j.slot) in reqs))
            && (!j.Slot? ==> Answering(r, chain, bn)(j) == Answering(pad, chain, bn)(j))
  {
    hide Raw, Agrees;
    if reqs != [] {
      var n := |reqs| - 1;
      FiledSlots(pad, chain, bn, reqs[..n], j);
      var k: ReadKey := Slot(reqs[n].0, reqs[n].1);
      PutAgrees(FileSlots(pad, chain, bn, reqs[..n]), chain, bn, k, j);
    }
  }

  lemma FiledAccount(pad: Pad, chain: Chain, bn: nat, a: Address, j: ReadKey)
    ensures var r := FileAccount(pad, chain, bn, a);
            && (Agrees(pad, chain, bn, j) ==> Agrees(r, chain, bn, j))
            && (!j.Slot? && j.account == a ==> Agrees(r, chain, bn, j))
            && (Raw(j) in r ==> Raw(j) in pad || (!j.Slot? && j.account == a))
            && (j.Slot? || j.account != a ==> Answering(r, chain, bn)(j) == Answering(pad, chain, bn)(j))
  {
    hide Raw, Agrees;
    var fetched := chain.account(bn, a);
    var r1 := pad[Raw(Balance(a)) := BigEndian(fetched.balance)];
    var r2 := r1[Raw(Nonce(a)) := NonceBytes(fetched.nonce)];
    var r3 := r2[Raw(Code(a)) := fetched.code];
    PutAgrees(pad, chain, bn, Balance(a), j);
    PutAgrees(r1, chain, bn, Nonce(a), j);
    PutAgrees(r2, chain, bn, Code(a), j);
    PutAgrees(r3, chain, bn, CodeHash(a), j);
  }

  lemma {:induction false} FiledAccounts(pad: Pad, chain: Chain, bn: nat, accounts: seq<Address>, j: ReadKey)
    ensures var r := FileAccounts(pad, chain, bn, accounts);
            && (Agrees(pad, chain, bn, j) ==> Agrees(r, chain, bn, j))
            && (!j.Slot? && j.account in accounts ==> Agrees(r, chain, bn, j))
            && (Raw(j) in r ==> Raw(j) in pad || (!j.Slot? && j.account in accounts))
            && (j.Slot? || j.account !in accounts ==> Answering(r, chain, bn)(j) == Answering(pad, chain, bn)(j))
  {
    hide Raw, Agrees, FileAccount;
    if accounts != [] {
      var n := |accounts| - 1;
      FiledAccounts(pad, chain, bn, accounts[..n], j);
      FiledAccount(FileAccounts(pad, chain, bn, accounts[..n]), chain, bn, accounts[n], j);
    }
  }

  lemma SlotKeepsWhole(pad: Pad, chain: Chain, k: ReadKey, val: Bytes)
    requires Whole(pad, chain) && k.Slot?
    ensures Whole(pad[Raw(k) := val], chain)
  {
    hide Raw, Whole;
    forall j: ReadKey | !j.Slot? ensures Raw(j) != Raw(k) {
      RawInjective(j, k);
    }
    WholeKept(pad, pad[Raw(k) := val], chain);
  }

  lemma {:induction false} SlotsKeepWhole(pad: Pad, chain: Chain, bn: nat, reqs: seq<(Address, Hash)>)
    requires Whole(pad, chain)
    ensures Whole(FileSlots(pad, chain, bn, reqs), chain)
  {
    hide Raw, Whole;
    if reqs != [] {
      var n := |reqs| - 1;
      SlotsKeepWhole(pad, chain, bn, reqs[..n]);
      var k: ReadKey := Slot(reqs[n].0, reqs[n].1);
      SlotKeepsWhole(FileSlots(pad, chain, bn, reqs[..n]), chain, k, chain.storage(bn, reqs[n].0, reqs[n].1));
    }
  }

  lemma AccountKeepsWhole(pad: Pad, chain: Chain, bn: nat, a: Address)
    requires Whole(pad, chain)
    ensures Whole(FileAccount(pad, chain, bn, a), chain)
  {
    hide Raw;
    forall b: Address ensures WholeAt(FileAccount(pad, chain, bn, a), chain, b) {
      assert WholeAt(pad, chain, b);
      OtherRaws(a, b);
    }
  }

  /** The keys of an account's four fields are different from one another and from those of others. */
  lemma OtherRaws(a: Address, b: Address)
    ensures Raw(Balance(a)) != Raw(Code(b)) && Raw(Balance(a)) != Raw(CodeHash(b))
    ensures Raw(Nonce(a)) != Raw(Code(b)) && Raw(Nonce(a)) != Raw(CodeHash(b))
    ensures Raw(Code(a)) != Raw(CodeHash(b)) && Raw(CodeHash(a)) != Raw(Code(b))
    ensures Raw(Code(a)) == Raw(Code(b)) <==> a == b
    ensures Raw(CodeHash(a)) == Raw(CodeHash(b)) <==> a == b
  {
    hide Raw;
    RawInjective(Balance(a), Code(b));
    RawInjective(Balance(a), CodeHash(b));
    RawInjective(Nonce(a), Code(b));
    RawInjective(Nonce(a), CodeHash(b));
    RawInjective(Code(a), CodeHash(b));
    RawInjective(CodeHash(a), Code(b));
    RawInjective(Code(a), Code(b));
    RawInjective(CodeHash(a), CodeHash(b));
  }

  lemma {:induction false} AccountsKeepWhole(pad: Pad, chain: Chain, bn: nat, accounts: seq<Address>)
    requires Whole(pad, chain)
    ensures Whole(FileAccounts(pad, chain, bn, accounts), chain)
  {
    hide Raw, Whole, FileAccount;
    if accounts != [] {
      var n := |accounts| - 1;
      AccountsKeepWhole(pad, chain, bn, accounts[..n]);
      AccountKeepsWhole(FileAccounts(pad, chain, bn, accounts[..n]), chain, bn, accounts[n]);
    }
  }

  lemma SlotRequested(pad: Pad, k: ReadKey)
    ensures k.Slot? && Raw(k) in pad ==> (k.account, k.slot) in SlotRequests(pad)
  {
    if k.Slot? && Raw(k) in pad {
      RawLayout(k);
      assert SlotOfKey(Raw(k)) == (k.account, k.slot);
    }
  }

  // ----- What is cached after a refresh -----

  /** Every field of every remembered account is cached. */
  ghost predicate AllCached(pad: Pad, accessed: set<Address>) {
    forall k: ReadKey :: !k.Slot? && k.account in accessed ==> Raw(k) in pad
  }

  lemma RefiledSlot(pad: Pad, r: (Address, Hash), val: Bytes)
    requires r in SlotRequests(pad)
    ensures SlotRequests(pad[Raw(Slot(r.0, r.1)) := val]) == SlotRequests(pad)
  {
    var x :| x in pad && IsSlotKey(x) && SlotOfKey(x) == r;
    assert x == x[..32] + x[32..52] + x[52..] == Raw(Slot(r.0, r.1));
    assert pad[x := val].Keys == pad.Keys;
  }

  /** Filing the answers caches no slot that was not asked for. */
  lemma {:induction false} SlotsKeepSlots(pad: Pad, chain: Chain, bn: nat, reqs: seq<(Address, Hash)>)
    requires forall i :: 0 <= i < |reqs| ==> reqs[i] in SlotRequests(pad)
    ensures SlotRequests(FileSlots(pad, chain, bn, reqs)) == SlotRequests(pad)
  {
    hide Raw, SlotRequests;
    if reqs != [] {
      var n := |reqs| - 1;
      SlotsKeepSlots(pad, chain, bn, reqs[..n]);
      RefiledSlot(FileSlots(pad, chain, bn, reqs[..n]), reqs[n], chain.storage(bn, reqs[n].0, reqs[n].1));
    }
  }

  lemma AccountCached(pad: Pad, chain: Chain, bn: nat, a: Address)
    ensures var r := FileAccount(pad, chain, bn, a);
            && SlotRequests(r) == SlotRequests(pad) && pad.Keys <= r.Keys
            && forall k: ReadKey :: !k.Slot? && k.account == a ==> Raw(k) in r
  {
    hide Raw, SlotRequests;
    var fetched := chain.account(bn, a);
    var r1 := pad[Raw(Balance(a)) := BigEndian(fetched.balance)];
    var r2 := r1[Raw(Nonce(a)) := NonceBytes(fetched.nonce)];
    var r3 := r2[Raw(Code(a)) := fetched.code];
    PlainKeepsSlots(pad, Balance(a), BigEndian(fetched.balance));
    PlainKeepsSlots(r1, Nonce(a), NonceBytes(fetched.nonce));
    PlainKeepsSlots(r2, Code(a), fetched.code);
    PlainKeepsSlots(r3, CodeHash(a), CodeHashOf(chain, fetched.code));
    forall k: ReadKey | !k.Slot? && k.account == a ensures Raw(k) in FileAccount(pad, chain, bn, a) {
      match k
      case Balance(_) =>
      case Nonce(_) =>
      case Code(_) =>
      case CodeHash(_) =>
    }
  }

  /** All fields of the listed accounts are cached, and no slot more or less. */
  lemma {:induction false} AccountsCached(pad: Pad, chain: Chain, bn: nat, accounts: seq<Address>)
    ensures var r := FileAccounts(pad, chain, bn, accounts);
            && SlotRequests(r) == SlotRequests(pad) && pad.Keys <= r.Keys
            && forall k: ReadKey :: !k.Slot? && k.account in accounts ==> Raw(k) in r
  {
    hide Raw, SlotRequests, FileAccount;
    if accounts != [] {
      var n := |accounts| - 1;
      AccountsCached(pad, chain, bn, accounts[..n]);
      AccountCached(FileAccounts(pad, chain, bn, accounts[..n]), chain, bn, accounts[n]);
    }
  }

  /** What a refresh that got past the slots leaves: the slots cached or seeded before, and their accounts
      remembered besides those that were. */
  ghost predicate Prefetched(pad: Pad, accessed: set<Address>, pad': Pad, accessed': set<Address>, seeds: seq<Bytes>) {
    var seeded := SeedPad(pad, seeds);
    SlotRequests(pad') == SlotRequests(seeded) && accessed' == Remembered(accessed, seeded)
  }

  lemma SlotKeyCached(pad: Pad, x: Bytes)
    requires IsSlotKey(x)
    ensures x in pad <==> SlotOfKey(x) in SlotRequests(pad)
  {
    if SlotOfKey(x) in SlotRequests(pad) {
      var y :| y in pad && IsSlotKey(y) && SlotOfKey(y) == SlotOfKey(x);
      assert x == x[..32] + x[32..52] + x[52..] && y == y[..32] + y[32..52] + y[52..];
    }
  }

  /** Some lines of a file are among all of them. */
  lemma FewerSeeds(file: string, max: nat, x: Bytes)
    requires x in F.Seeds(file, max)
    ensures x in F.Seeds(file, |F.Lines(file)|)
  {
    var some, all := F.Seeds(file, max), F.Seeds(file, |F.Lines(file)|);
    var i :| 0 <= i < |some| && some[i] == x;
    assert all[i] == x;
  }

  /** What the rewritten file seeds is cached already. */
  lemma NothingNewSeeded(pad: Pad, accessed: set<Address>, file: string, max: nat,
                         pad1: Pad, accessed1: set<Address>, file1: string, x: Bytes)
    requires Prefetched(pad, accessed, pad1, accessed1, F.Seeds(file, max)) && Names(file1, pad, F.Seeds(file, max))
    ensures x in F.Seeds(file1, max) ==> x in pad1
    ensures IsSlotKey(x) ==> (x in pad1 <==> x in pad || x in F.Seeds(file, max))
  {
    hide F.Seeds, SlotRequests;
    if IsSlotKey(x) {
      SlotKeyCached(pad1, x);
      SlotKeyCached(SeedPad(pad, F.Seeds(file, max)), x);
    }
    if x in F.Seeds(file1, max) {
      FewerSeeds(file1, max, x);
    }
  }

  /** A second refresh asks for the slots and accounts of the first, so it ends as the first would have
      with its failures, and its file names the same slots. */
  lemma RefreshAgain(pad: Pad, accessed: set<Address>, file: string, max: nat,
                     pad1: Pad, accessed1: set<Address>, file1: string, batchSize: nat,
                     slotFails: nat -> bool, accountFails: nat -> bool)
    requires batchSize >= 1
    requires Prefetched(pad, accessed, pad1, accessed1, F.Seeds(file, max)) && Names(file1, pad, F.Seeds(file, max))
    ensures RefreshOutcome(pad1, accessed1, file1, max, batchSize, slotFails, accountFails) ==
            RefreshOutcome(pad, accessed, file, max, batchSize, slotFails, accountFails)
    ensures forall file2 :: Names(file2, pad1, F.Seeds(file1, max)) ==> Names(file2, pad, F.Seeds(file, max))
  {
    hide F.Seeds, SlotRequests, N.Failures, N.Plan, IsSlotKey;
    var seeded, seeds1 := SeedPad(pad, F.Seeds(file, max)), F.Seeds(file1, max);
    forall x
      ensures x in seeds1 ==> x in pad1
      ensures IsSlotKey(x) ==> (x in pad1 <==> x in pad || x in F.Seeds(file, max))
    {
      NothingNewSeeded(pad, accessed, file, max, pad1, accessed1, file1, x);
    }
    SameSlots(pad1, SeedPad(pad1, seeds1));
    assert Remembered(accessed1, SeedPad(pad1, seeds1)) == Remembered(accessed, seeded);
    forall file2 | Names(file2, pad1, seeds1) ensures Names(file2, pad, F.Seeds(file, max)) {
    }
  }

  lemma MoreSlots(pad: Pad, next: Pad)
    requires pad.Keys <= next.Keys
    ensures SlotRequests(pad) <= SlotRequests(next)
  {
  }

  lemma SameSlots(pad: Pad, next: Pad)
    requires next.Keys == pad.Keys
    ensures SlotRequests(next) == SlotRequests(pad)
  {
  }

  lemma SlotsRemembered(pad: Pad, accessed: set<Address>)
    ensures forall k: ReadKey :: k.Slot? && Raw(k) in pad ==> k.account in Remembered(accessed, pad)
  {
    hide Raw, SlotRequests;
    forall k: ReadKey | k.Slot? && Raw(k) in pad ensures k.account in Remembered(accessed, pad) {
      SlotRequested(pad, k);
      assert (k.account, k.slot).0 == k.account;
    }
  }

  /** A seeded key is a slot key, or one that no read ever asks for. */
  lemma SeedsAreSlots(file: string, max: nat, k: ReadKey)
    ensures Raw(k) in F.Seeds(file, max) ==> k.Slot?
  {
    RawLayout(k);
    if Raw(k) in F.Seeds(file, max) {
      assert Raw(k)[..32] == STATE_KEY;
      TagsDistinct(k, Slot(k.account, ZERO_HASH));
    }
  }

  /** Seeding touches no account-level entry. */
  lemma SeedKeepsAccounts(pad: Pad, file: string, max: nat, chain: Chain, bn: nat, k: ReadKey)
    requires !k.Slot?
    ensures Answering(SeedPad(pad, F.Seeds(file, max)), chain, bn)(k) == Answering(pad, chain, bn)(k)
  {
    hide Raw, F.Seeds;
    SeedsAreSlots(file, max, k);
  }

  lemma SeedKeepsTracks(pad: Pad, file: string, max: nat, accessed: set<Address>)
    requires Tracks(pad, accessed)
    ensures Tracks(SeedPad(pad, F.Seeds(file, max)), accessed)
  {
    hide Raw, F.Seeds;
    forall k: ReadKey | Raw(k) in SeedPad(pad, F.Seeds(file, max)) && !k.Slot? ensures k.account in accessed {
      SeedsAreSlots(file, max, k);
    }
  }

  lemma SeedKeepsWhole(pad: Pad, file: string, max: nat, chain: Chain)
    requires Whole(pad, chain)
    ensures Whole(SeedPad(pad, F.Seeds(file, max)), chain)
  {
    hide Raw, F.Seeds, Whole;
    forall k: ReadKey | k.Code? || k.CodeHash? ensures Raw(k) !in F.Seeds(file, max) {
      SeedsAreSlots(file, max, k);
    }
    WholeKept(pad, SeedPad(pad, F.Seeds(file, max)), chain);
  }

  lemma TracksMore(pad: Pad, accessed: set<Address>, more: set<Address>)
    requires Tracks(pad, accessed) && accessed <= more
    ensures Tracks(pad, more)
  {
    hide Raw;
  }

  /** Once all slots of a pad are refetched every slot entry agrees, placeholders included. */
  lemma SlotsRefetched(pad: Pad, chain: Chain, bn: nat, reqs: seq<(Address, Hash)>, accessed: set<Address>)
    requires Lists(reqs, SlotRequests(pad)) && Tracks(pad, accessed)
    ensures SlotsAgree(FileSlots(pad, chain, bn, reqs), chain, bn)
    ensures Tracks(FileSlots(pad, chain, bn, reqs), accessed)
  {
    hide Raw, Agrees, FileSlots, SlotRequests;
    var r := FileSlots(pad, chain, bn, reqs);
    forall k: ReadKey
      ensures k.Slot? ==> Agrees(r, chain, bn, k)
      ensures Raw(k) in r && !k.Slot? ==> k.account in accessed
    {
      FiledSlots(pad, chain, bn, reqs, k);
      SlotRequested(pad, k);
      if Raw(k) !in r { NotCached(r, chain, bn, k); }
    }
  }

  /** If every account with a cached field is listed, refetching the accounts of the list makes every
      reachable entry agree, as soon as the slots do. */
  lemma AccountsRefetched(pad: Pad, chain: Chain, bn: nat, accounts: seq<Address>, accessed: set<Address>, k: ReadKey)
    requires SlotsAgree(pad, chain, bn) && Tracks(pad, set a | a in accounts)
    requires forall a :: a in accounts ==> a in accessed
    ensures Agrees(FileAccounts(pad, chain, bn, accounts), chain, bn, k)
    ensures Raw(k) in FileAccounts(pad, chain, bn, accounts) && !k.Slot? ==> k.account in accessed
  {
    hide Raw, Agrees, FileAccounts;
    var r := FileAccounts(pad, chain, bn, accounts);
    FiledAccounts(pad, chain, bn, accounts, k);
    if !k.Slot? && Raw(k) !in r { NotCached(r, chain, bn, k); }
  }

  /** Refresh coherence: whatever was cached before, at whatever block, seeding, refetching every slot
      and refetching every remembered account leaves nothing but upstream values to be read. */
  lemma RefreshCoherent(pad: Pad, file: string, max: nat, chain: Chain, bn: nat, reqs: seq<(Address, Hash)>,
                        accounts: seq<Address>, accessed: set<Address>, k: ReadKey)
    requires Tracks(pad, accessed) && Lists(accounts, accessed)
    requires Lists(reqs, SlotRequests(SeedPad(pad, F.Seeds(file, max))))
    ensures var seeded := SeedPad(pad, F.Seeds(file, max));
            Agrees(FileAccounts(FileSlots(seeded, chain, bn, reqs), chain, bn, accounts), chain, bn, k)
  {
    hide Agrees, FileAccounts, FileSlots, SlotRequests, SlotsAgree, SeedPad;
    SeedKeepsTracks(pad, file, max, accessed);
    SlotsRefetched(SeedPad(pad, F.Seeds(file, max)), chain, bn, reqs, accessed);
    assert accessed == set a | a in accounts;
    AccountsRefetched(FileSlots(SeedPad(pad, F.Seeds(file, max)), chain, bn, reqs), chain, bn, accounts, accessed, k);
  }

  /** A placeholder is never what upstream holds: it is read as the zero slot. */
  lemma PlaceholderShows(pad: Pad, chain: Chain, bn: nat, k: ReadKey)
    requires k.Slot? && Raw(k) in pad && pad[Raw(k)] == []
    ensures !Agrees(pad, chain, bn, k)
    ensures FitRight(pad[Raw(k)], 32) == Fetched(chain, bn, k) <==> Fetched(chain, bn, k) == ZERO_HASH
  {
    assert |Fetched(chain, bn, k)| == 32;
    assert FitRight([], 32) == ZERO_HASH;
  }

  // ----- Filing one fetched account where nothing is cached yet -----

  function FillOne(pad: Pad, chain: Chain, k: ReadKey, fetched: Account): Pad
    requires !k.Slot?
  {
    if Raw(k) in pad then pad else pad[Raw(k) := AccountEntry(chain, fetched, k)]
  }

  function FillAccount(pad: Pad, chain: Chain, a: Address, fetched: Account): Pad {
    var r1 := FillOne(pad, chain, Balance(a), fetched);
    var r2 := FillOne(r1, chain, Nonce(a), fetched);
    var r3 := FillOne(r2, chain, Code(a), fetched);
    FillOne(r3, chain, CodeHash(a), fetched)
  }

  lemma FillOneKey(pad: Pad, chain: Chain, k: ReadKey, fetched: Account)
    requires !k.Slot?
    ensures var r := FillOne(pad, chain, k, fetched);
            && r.Keys == pad.Keys + {Raw(k)}
            && r[Raw(k)] == (if Raw(k) in pad then pad[Raw(k)] else AccountEntry(chain, fetched, k))
            && forall x :: x in pad ==> r[x] == pad[x]
  {
  }

  /** Filing an account asks for no slot. */
  lemma PlainKeepsSlots(pad: Pad, k: ReadKey, val: Bytes)
    requires !k.Slot?
    ensures SlotRequests(pad[Raw(k) := val]) == SlotRequests(pad)
  {
    RawLayout(k);
    hide Raw;
    forall x ensures IsSlotKey(x) && x in pad[Raw(k) := val] <==> IsSlotKey(x) && x in pad {
    }
  }

  lemma FillKeepsSlots(pad: Pad, chain: Chain, a: Address, fetched: Account)
    ensures SlotRequests(FillAccount(pad, chain, a, fetched)) == SlotRequests(pad)
  {
    hide Raw, SlotRequests;
    var r1 := FillOne(pad, chain, Balance(a), fetched);
    var r2 := FillOne(r1, chain, Nonce(a), fetched);
    var r3 := FillOne(r2, chain, Code(a), fetched);
    PlainKeepsSlots(pad, Balance(a), AccountEntry(chain, fetched, Balance(a)));
    PlainKeepsSlots(r1, Nonce(a), AccountEntry(chain, fetched, Nonce(a)));
    PlainKeepsSlots(r2, Code(a), AccountEntry(chain, fetched, Code(a)));
    PlainKeepsSlots(r3, CodeHash(a), AccountEntry(chain, fetched, CodeHash(a)));
  }

  lemma PlainKeepsWhole(pad: Pad, chain: Chain, k: ReadKey, fetched: Account)
    requires Whole(pad, chain) && (k.Balance? || k.Nonce?)
    ensures Whole(FillOne(pad, chain, k, fetched), chain)
  {
    hide Raw, Whole;
    forall j: ReadKey | j.Code? || j.CodeHash? ensures Raw(j) != Raw(k) {
      RawInjective(j, k);
    }
    WholeKept(pad, FillOne(pad, chain, k, fetched), chain);
  }

  lemma CodeKeepsWhole(pad: Pad, chain: Chain, a: Address, fetched: Account)
    requires Whole(pad, chain)
    ensures Whole(FillOne(FillOne(pad, chain, Code(a), fetched), chain, CodeHash(a), fetched), chain)
  {
    hide Raw;
    var r := FillOne(FillOne(pad, chain, Code(a), fetched), chain, CodeHash(a), fetched);
    forall b: Address ensures WholeAt(r, chain, b) {
      assert WholeAt(pad, chain, b) && WholeAt(pad, chain, a);
      OtherRaws(a, b);
    }
  }

  /** All four are there afterwards, none that was is changed, and the code hash is the code's. */
  lemma FillKeepsWhole(pad: Pad, chain: Chain, a: Address, fetched: Account)
    requires Whole(pad, chain)
    ensures var r := FillAccount(pad, chain, a, fetched);
            && Whole(r, chain)
            && (forall k: ReadKey :: k.account == a && !k.Slot? ==> Raw(k) in r)
            && (forall x :: x in pad ==> x in r && r[x] == pad[x])
  {
    var r1 := FillOne(pad, chain, Balance(a), fetched);
    var r2 := FillOne(r1, chain, Nonce(a), fetched);
    var r3 := FillOne(r2, chain, Code(a), fetched);
    hide Raw, FillOne, Whole;
    PlainKeepsWhole(pad, chain, Balance(a), fetched);
    PlainKeepsWhole(r1, chain, Nonce(a), fetched);
    CodeKeepsWhole(r2, chain, a, fetched);
    FillOneKey(pad, chain, Balance(a), fetched);
    FillOneKey(r1, chain, Nonce(a), fetched);
    FillOneKey(r2, chain, Code(a), fetched);
    FillOneKey(r3, chain, CodeHash(a), fetched);
    forall k: ReadKey | k.account == a && !k.Slot? ensures Raw(k) in FillAccount(pad, chain, a, fetched) {
      match k
      case Balance(_) =>
      case Nonce(_) =>
      case Code(_) =>
      case CodeHash(_) =>
    }
  }

  // ----- The loops -----

  lemma SeedSnoc(pad: Pad, seeds: seq<Bytes>, n: nat)
    requires n < |seeds|
    ensures SeedPad(pad, seeds[..n + 1]) == SeedPad(pad, seeds[..n])[seeds[n] := []]
  {
    assert seeds[..n + 1] == seeds[..n] + [seeds[n]];
  }

  lemma SeedNothing(pad: Pad)
    ensures SeedPad(pad, []) == pad
  {
  }

  /** The first loop: placeholders for the slots named in the key file. */
  method Seed(pad: Pad, file: string, max: nat) returns (r: Pad)
    ensures r == SeedPad(pad, F.Seeds(file, max))
  {
    hide F.HexDecode, F.Lines, SeedPad;
    var lines := F.Lines(file);
    ghost var seeds := F.Seeds(file, max);
    r := pad;
    SeedNothing(pad);
    var keyCacheCnt := 0;
    while keyCacheCnt < |lines| && keyCacheCnt < max
      invariant keyCacheCnt <= |seeds| && r == SeedPad(pad, seeds[..keyCacheCnt])
    {
      SeedSnoc(pad, seeds, keyCacheCnt);
      r := r[STATE_KEY + F.HexDecode(lines[keyCacheCnt]) := []];
      keyCacheCnt := keyCacheCnt + 1;
    }
    assert seeds[..keyCacheCnt] == seeds;
  }

  /** The second loop, over the pad in any order: every slot key becomes one request and one line
      of the new key file. */
  method Collect(pad: Pad) returns (slots: seq<Bytes>, reqs: seq<(Address, Hash)>, cachedStr: string)
    ensures forall i, j :: 0 <= i < j < |slots| ==> slots[i] != slots[j]
    ensures forall x :: x in slots <==> IsSlotKey(STATE_KEY + x) && STATE_KEY + x in pad
    ensures |reqs| == |slots|
    ensures forall i :: 0 <= i < |slots| ==> |slots[i]| == 52 && reqs[i] == (slots[i][..20], slots[i][20..])
    ensures cachedStr == F.Save(slots)
  {
    hide F.Save;
    slots, reqs, cachedStr := [], [], "";
    F.SaveNothing();
    var keys := pad.Keys;
    while keys != {}
      invariant keys <= pad.Keys
      invariant forall i, j :: 0 <= i < j < |slots| ==> slots[i] != slots[j]
      invariant forall x :: x in slots <==> IsSlotKey(STATE_KEY + x) && STATE_KEY + x in pad.Keys - keys
      invariant |reqs| == |slots|
      invariant forall i :: 0 <= i < |slots| ==> |slots[i]| == 52 && reqs[i] == (slots[i][..20], slots[i][20..])
      invariant cachedStr == F.Save(slots)
    {
      var key :| key in keys;
      if |key| == 84 && key[..32] == STATE_KEY {
        assert key == STATE_KEY + key[32..];
        var acc: Address := key[32..52];
        var slot: Hash := key[52..];
        assert key[32..][..20] == acc && key[32..][20..] == slot;
        F.SaveSnoc(slots, key[32..]);
        slots := slots + [key[32..]];
        reqs := reqs + [(acc, slot)];
        cachedStr := cachedStr + F.HexEncode(key[32..]) + "\n";
      }
      keys := keys - {key};
    }
  }

  /** The third loop: the fetched values replace the placeholders and the old values. */
  method StoreSlots(pad: Pad, chain: Chain, bn: nat, reqs: seq<(Address, Hash)>, values: seq<Hash>) returns (r: Pad)
    requires |values| == |reqs|
    requires forall i :: 0 <= i < |reqs| ==> values[i] == chain.storage(bn, reqs[i].0, reqs[i].1)
    ensures r == FileSlots(pad, chain, bn, reqs)
  {
    hide Raw;
    r := pad;
    for n := 0 to |reqs|
      invariant r == FileSlots(pad, chain, bn, reqs[..n])
    {
      assert reqs[..n + 1][..n] == reqs[..n];
      r := r[Raw(Slot(reqs[n].0, reqs[n].1)) := values[n]];
    }
    assert reqs[..|reqs|] == reqs;
  }

  /** The last loop, over the fetched accounts. */
  method StoreAccounts(pad: Pad, chain: Chain, bn: nat, accounts: seq<Address>, results: seq<Account>)
    returns (r: Pad)
    requires |results| == |accounts|
    requires forall i :: 0 <= i < |accounts| ==> results[i] == chain.account(bn, accounts[i])
    ensures r == FileAccounts(pad, chain, bn, accounts)
  {
    hide Raw;
    r := pad;
    for n := 0 to |accounts|
      invariant r == FileAccounts(pad, chain, bn, accounts[..n])
    {
      var a, fetched := accounts[n], results[n];
      assert accounts[..n + 1][..n] == accounts[..n];
      r := r[Raw(Balance(a)) := BigEndian(fetched.balance)];
      r := r[Raw(Nonce(a)) := NonceBytes(fetched.nonce)];
      r := r[Raw(Code(a)) := fetched.code];
      r := r[Raw(CodeHash(a)) := CodeHashOf(chain, fetched.code)];
    }
    assert accounts[..|accounts|] == accounts;
  }

  /** A list of slots names, once each, the slots cached before and those seeded. */
  ghost predicate ListsSlots(slots: seq<Bytes>, cached: Pad, seeds: seq<Bytes>) {
    && (forall i, j :: 0 <= i < j < |slots| ==> slots[i] != slots[j])
    && forall x :: x in slots <==> IsSlotKey(STATE_KEY + x) && (STATE_KEY + x in cached || STATE_KEY + x in seeds)
  }

  /** Loading the file names each slot that was cached or seeded, and each once. */
  ghost predicate Names(file: string, cached: Pad, seeds: seq<Bytes>) {
    var loaded := F.Seeds(file, |F.Lines(file)|);
    && (forall i, j :: 0 <= i < j < |loaded| ==> loaded[i] != loaded[j])
    && forall x :: x in loaded <==> IsSlotKey(x) && (x in cached || x in seeds)
  }

  lemma SavedNames(slots: seq<Bytes>, cached: Pad, seeds: seq<Bytes>)
    requires ListsSlots(slots, cached, seeds)
    ensures Names(F.Save(slots), cached, seeds)
  {
    hide F.Seeds, F.Save, F.Lines;
    var loaded := F.Seeds(F.Save(slots), |F.Lines(F.Save(slots))|);
    F.LoadAll(slots);
    forall i, j | 0 <= i < j < |loaded| ensures loaded[i] != loaded[j] {
      assert loaded[i][32..] == slots[i] && loaded[j][32..] == slots[j];
    }
    forall x | IsSlotKey(x) && (x in cached || x in seeds) ensures x in loaded {
      assert x == STATE_KEY + x[32..];
      assert x[32..] in slots;
    }
    forall x | x in loaded ensures IsSlotKey(x) && (x in cached || x in seeds) {
      var i :| 0 <= i < |loaded| && loaded[i] == x;
      assert slots[i] in slots;
    }
  }

  lemma SeededLists(slots: seq<Bytes>, cached: Pad, seeded: Pad, seeds: seq<Bytes>)
    requires forall i, j :: 0 <= i < j < |slots| ==> slots[i] != slots[j]
    requires forall x :: x in slots <==> IsSlotKey(STATE_KEY + x) && STATE_KEY + x in seeded
    requires seeded.Keys == cached.Keys + set x | x in seeds
    ensures ListsSlots(slots, cached, seeds)
  {
  }

  /** What Collect gathers are the slots of the pad. */
  lemma Collected(pad: Pad, slots: seq<Bytes>, reqs: seq<(Address, Hash)>)
    requires |reqs| == |slots|
    requires forall i :: 0 <= i < |slots| ==> |slots[i]| == 52 && reqs[i] == (slots[i][..20], slots[i][20..])
    requires forall x :: x in slots <==> IsSlotKey(STATE_KEY + x) && STATE_KEY + x in pad
    requires forall i, j :: 0 <= i < j < |slots| ==> slots[i] != slots[j]
    ensures Lists(reqs, SlotRequests(pad)) && |reqs| == |SlotRequests(pad)|
  {
    forall i, j | 0 <= i < j < |reqs| ensures reqs[i] != reqs[j] {
      assert slots[i] == slots[i][..20] + slots[i][20..] && slots[j] == slots[j][..20] + slots[j][20..];
    }
    forall r | r in reqs ensures r in SlotRequests(pad) {
      var i :| 0 <= i < |reqs| && reqs[i] == r;
      var x := STATE_KEY + slots[i];
      assert slots[i] in slots && x[32..52] == slots[i][..20] && x[52..] == slots[i][20..];
      assert SlotOfKey(x) == r;
    }
    forall r | r in SlotRequests(pad) ensures r in reqs {
      var x :| x in pad && IsSlotKey(x) && SlotOfKey(x) == r;
      assert x == STATE_KEY + x[32..];
      var i :| 0 <= i < |slots| && slots[i] == x[32..];
      assert slots[i][..20] == x[32..52] && slots[i][20..] == x[52..];
      assert reqs[i] == r;
    }
    ListedCount(reqs, SlotRequests(pad));
  }

  lemma NotCached(pad: Pad, chain: Chain, bn: nat, k: ReadKey)
    requires Raw(k) !in pad
    ensures Agrees(pad, chain, bn, k)
  {
  }
}
