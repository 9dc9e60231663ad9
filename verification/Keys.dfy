/** Scratch-pad keys (mferstate/overlaystate.go): a 32-byte tag, a 20-byte account and, for a
    storage slot, the 32-byte slot number. */
module Keys {
  import opened Words

  datatype Key =
    | Balance(account: Address)
    | Nonce(account: Address)
    | Code(account: Address)
    | CodeHash(account: Address)
    | Slot(account: Address, slot: Hash)
    | Suicide(account: Address)

  /** The keys `get` is ever asked for: the five request types. */
  type ReadKey = k: Key | !k.Suicide? witness Balance(Zeros(20))

  // Keccak-256 of the names "mfersafe-scratchpad-balance", "-nonce", "-code", "-codehash",
  // "-state" and of "mfersafe-suicide-state".
  const BALANCE_KEY: Hash := [
    0xea, 0xc6, 0x7d, 0x5d, 0xbb, 0x1e, 0x18, 0xd2, 0x11, 0x57, 0x72, 0x8d, 0xbf, 0xbd, 0x97, 0x7c,
    0xe1, 0x0f, 0xf6, 0x38, 0x1b, 0x78, 0x76, 0xeb, 0xf0, 0x37, 0x45, 0x0d, 0x16, 0xa8, 0xe1, 0xf6]
  const NONCE_KEY: Hash := [
    0x27, 0x3e, 0x27, 0xe5, 0xf0, 0xcc, 0xae, 0x93, 0xb6, 0x6f, 0x5c, 0x6d, 0x72, 0xd6, 0xff, 0x05,
    0x3b, 0xca, 0x7a, 0xaa, 0xaa, 0x34, 0x50, 0x22, 0xe9, 0x41, 0x29, 0x5f, 0xab, 0x8a, 0x24, 0x4c]
  const CODE_KEY: Hash := [
    0x65, 0x9f, 0xe6, 0x77, 0xe6, 0x7d, 0x26, 0x42, 0x1d, 0x3c, 0xde, 0x84, 0x81, 0x87, 0x11, 0x4c,
    0x81, 0x95, 0x2d, 0xf4, 0x47, 0xa9, 0xaf, 0xbb, 0x6b, 0x11, 0xbf, 0x66, 0x19, 0x3b, 0xd5, 0x4c]
  const CODEHASH_KEY: Hash := [
    0x73, 0x24, 0xc0, 0x41, 0xf9, 0x23, 0x19, 0x90, 0x81, 0x33, 0x7d, 0xb2, 0xc0, 0x9f, 0x8c, 0x02,
    0xcc, 0xe8, 0xf0, 0x40, 0xd0, 0xd3, 0xe1, 0xa3, 0x2f, 0xc7, 0xa7, 0xd8, 0x2c, 0xee, 0xab, 0x60]
  const STATE_KEY: Hash := [
    0x2c, 0x1d, 0x13, 0xca, 0x79, 0x06, 0xa0, 0x07, 0xee, 0xf7, 0x20, 0x73, 0x54, 0xd5, 0x46, 0x76,
    0x11, 0x85, 0xe9, 0x8a, 0xf8, 0x95, 0xfa, 0xcc, 0xd4, 0x13, 0x90, 0x5d, 0xf8, 0xd9, 0xfd, 0xc2]
  const SUICIDE_KEY: Hash := [
    0x21, 0xfc, 0xc7, 0x68, 0xbb, 0x98, 0xf0, 0x4e, 0xee, 0x64, 0x21, 0x83, 0xe3, 0xac, 0x0e, 0xb0,
    0x75, 0x88, 0x7f, 0x13, 0x12, 0x3f, 0x6c, 0x55, 0xf9, 0xf2, 0x36, 0x7b, 0x63, 0x34, 0x94, 0xa3]

  function Tag(k: Key): Hash {
    match k
    case Balance(_) => BALANCE_KEY
    case Nonce(_) => NONCE_KEY
    case Code(_) => CODE_KEY
    case CodeHash(_) => CODEHASH_KEY
    case Slot(_, _) => STATE_KEY
    case Suicide(_) => SUICIDE_KEY
  }

  function CalcKey(op: Hash, account: Address): Bytes {
    op + account
  }

  function CalcStateKey(account: Address, slot: Hash): Bytes {
    CalcKey(STATE_KEY, account) + slot
  }

  /** The byte string under which a key is filed. */
  function Raw(k: Key): Bytes {
    if k.Slot? then CalcStateKey(k.account, k.slot) else CalcKey(Tag(k), k.account)
  }

  /** The slicing done by GetStateDiff and resetScratchPad, as one partial function. */
  function Parse(b: Bytes): Option<Key> {
    if |b| == 84 then
      if b[..32] == STATE_KEY then Some(Slot(b[32..52], b[52..])) else None
    else if |b| == 52 then
      var account: Address := b[32..];
      if b[..32] == BALANCE_KEY then Some(Balance(account))
      else if b[..32] == NONCE_KEY then Some(Nonce(account))
      else if b[..32] == CODE_KEY then Some(Code(account))
      else if b[..32] == CODEHASH_KEY then Some(CodeHash(account))
      else if b[..32] == SUICIDE_KEY then Some(Suicide(account))
      else None
    else None
  }

  /** No two tags collide: their first bytes differ. */
  lemma TagsDistinct(i: Key, j: Key)
    requires Tag(i) == Tag(j)
    ensures i.Balance? <==> j.Balance?
    ensures i.Nonce? <==> j.Nonce?
    ensures i.Code? <==> j.Code?
    ensures i.CodeHash? <==> j.CodeHash?
    ensures i.Slot? <==> j.Slot?
    ensures i.Suicide? <==> j.Suicide?
  {
    assert BALANCE_KEY[0] == 0xea;
    assert NONCE_KEY[0] == 0x27;
    assert CODE_KEY[0] == 0x65;
    assert CODEHASH_KEY[0] == 0x73;
    assert STATE_KEY[0] == 0x2c;
    assert SUICIDE_KEY[0] == 0x21;
    assert Tag(i)[0] == Tag(j)[0];
  }

  lemma RawLayout(k: Key)
    ensures |Raw(k)| == if k.Slot? then 84 else 52
    ensures Raw(k)[..32] == Tag(k) && Raw(k)[32..52] == k.account
    ensures k.Slot? ==> Raw(k)[52..] == k.slot
  {
  }

  /** Slicing inverts the key calculation, for every kind, account and slot. */
  lemma ParseRaw(k: Key)
    ensures Parse(Raw(k)) == Some(k)
  {
    RawLayout(k);
    var b := Raw(k);
    if !k.Slot? {
      assert b[32..] == b[32..52];
    }
    assert BALANCE_KEY[0] == 0xea;
    assert NONCE_KEY[0] == 0x27;
    assert CODE_KEY[0] == 0x65;
    assert CODEHASH_KEY[0] == 0x73;
    assert SUICIDE_KEY[0] == 0x21;
  }

  /** Only strings built by the key calculation are accepted by the slicing. */
  lemma RawParse(b: Bytes)
    requires Parse(b).Some?
    ensures Raw(Parse(b).value) == b
  {
    if |b| == 84 {
      assert b == b[..32] + b[32..52] + b[52..];
    } else {
      assert b == b[..32] + b[32..];
    }
  }

  lemma RawInjective(i: Key, j: Key)
    ensures Raw(i) == Raw(j) <==> i == j
  {
    if Raw(i) == Raw(j) {
      ParseRaw(i);
      ParseRaw(j);
    }
  }
}
