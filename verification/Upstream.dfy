/** The forked chain, as an arbitrary total function of block number and key, and the form in
    which the root scratch pad stores what it fetched. */
module Upstream {
  import opened Words
  import opened Keys

  type Nonce64 = n: nat | n < TWO_64

  /** One eth_getTransactionCount, eth_getBalance, eth_getCode triple. */
  datatype Account = Account(nonce: Nonce64, balance: nat, code: Bytes)

  datatype Chain = Chain(
    account: (nat, Address) -> Account,
    storage: (nat, Address, Hash) -> Hash,
    keccak: Bytes -> Hash)

  /** A root view: the value of every readable key at one block. */
  type Root = ReadKey -> Bytes

  function CodeHashOf(chain: Chain, code: Bytes): Hash {
    if code == [] then ZERO_HASH else chain.keccak(code)
  }

  /** What the root files for one key of a fetched account. */
  function AccountEntry(chain: Chain, fetched: Account, k: ReadKey): Bytes
    requires !k.Slot?
  {
    match k
    case Balance(_) => BigEndian(fetched.balance)
    case Nonce(_) => NonceBytes(fetched.nonce)
    case Code(_) => fetched.code
    case CodeHash(_) => CodeHashOf(chain, fetched.code)
  }

  /** The value a read of k must return when no layer above the root holds it. */
  function Fetched(chain: Chain, bn: nat, k: ReadKey): Bytes {
    if k.Slot? then chain.storage(bn, k.account, k.slot)
    else AccountEntry(chain, chain.account(bn, k.account), k)
  }

  function RootAt(chain: Chain, bn: nat): Root {
    (k: ReadKey) => Fetched(chain, bn, k)
  }

  /** Two reads of one account belong together: the code hash is zero where there is no code, and the
      hash of the code elsewhere. */
  ghost predicate HashesFit(chain: Chain, view: Root) {
    forall a: Address ::
      view(CodeHash(a)) == if view(Code(a)) == [] then Zeros(32) else chain.keccak(view(Code(a)))
  }

  /** What the reads of an upstream root say of the chain. */
  lemma ReadsOfUpstream(chain: Chain, bn: nat, a: Address, slot: Hash)
    ensures HashesFit(chain, RootAt(chain, bn))
    ensures var view, account := RootAt(chain, bn), chain.account(bn, a);
            && ToNat(view(Balance(a))) == account.balance
            && (NonceOf(view(Nonce(a))) == account.nonce <==> account.nonce <= TWO_63)
            && view(Code(a)) == account.code
            && view(Slot(a, slot)) == chain.storage(bn, a, slot)
  {
    hide ToNat, BigEndian, NonceBytes, NonceOf, Zeros;
    BigEndianRoundTrip(chain.account(bn, a).balance);
    NonceSurvives(chain.account(bn, a).nonce);
  }
}
