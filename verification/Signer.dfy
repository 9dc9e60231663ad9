/** The pseudo-signer (mfersigner/signer.go) that puts the sender where a signature's r would be,
    and TxToMessage's choice of signer (mferevm/evm.go). */
module Signer {
  import opened Words

  /** The raw signature values of a transaction; big integers, so of either sign. */
  datatype Signature = Signature(r: int, s: int, v: int)

  /** The ten letters "mferSigner" as bytes. */
  const MFERSIGNER: Bytes := [0x6D, 0x66, 0x65, 0x72, 0x53, 0x69, 0x67, 0x6E, 0x65, 0x72]

  const MFERSIGNER_S: nat := ToNat(MFERSIGNER)

  function SignatureValues(sig: Bytes): Signature {
    Signature(ToNat(sig), MFERSIGNER_S, 1)
  }

  /** common.BigToAddress of r. */
  function Sender(x: Signature): Address {
    FitRight(BigEndian(Abs(x.r)), 20)
  }

  /** Whether TxToMessage takes the pseudo-signer: v.Uint64() keeps 64 bits, s.Bytes() drops the sign. */
  predicate Pseudo(x: Signature) {
    Abs(x.v) % TWO_64 == 1 && BigEndian(Abs(x.s)) == BigEndian(MFERSIGNER_S)
  }

  /** The sender of the message; `london` recovers one from an ordinary signature, or fails. */
  function MessageFrom(x: Signature, london: Signature -> Option<Address>): Option<Address> {
    if Pseudo(x) then Some(Sender(x)) else london(x)
  }

  /** Signing and recovery: whatever bytes are signed, the pseudo-signer is recognised and the sender
      read back is their last 20 bytes, so every address survives, leading zeros included. */
  lemma SenderSurvives(sig: Bytes, london: Signature -> Option<Address>)
    ensures Pseudo(SignatureValues(sig))
    ensures MessageFrom(SignatureValues(sig), london) == Some(FitRight(sig, 20))
    ensures |sig| == 20 ==> MessageFrom(SignatureValues(sig), london) == Some(sig)
  {
    FitIsFill(ToNat(sig), 20);
    FillOfNat(sig, 20);
  }

  /** Of any r, whatever its sign and size, the sender is the low 160 bits of its magnitude. */
  lemma SenderIsLowBits(x: Signature)
    ensures ToNat(Sender(x)) == Abs(x.r) % Pow256(20)
  {
    FitIsFill(Abs(x.r), 20);
    FillBytesDigits(Abs(x.r), 20);
  }

  /** Only the pair (v, s) decides, and s by its absolute value alone. */
  lemma PseudoExactly(x: Signature)
    ensures Pseudo(x) <==> Abs(x.v) % TWO_64 == 1 && Abs(x.s) == MFERSIGNER_S
  {
    BigEndianRoundTrip(Abs(x.s));
    BigEndianRoundTrip(MFERSIGNER_S);
  }

  /** Every other signature gives what the ordinary signer recovers. */
  lemma OrdinaryRecovered(x: Signature, london: Signature -> Option<Address>)
    requires Abs(x.v) % TWO_64 != 1 || Abs(x.s) != MFERSIGNER_S
    ensures MessageFrom(x, london) == london(x)
  {
    PseudoExactly(x);
  }

  /** Two addresses signed alike are the same address. */
  lemma SignatureInjective(a: Address, b: Address)
    requires SignatureValues(a) == SignatureValues(b)
    ensures a == b
  {
    ToNatInjective(a, b);
  }
}
