/** Packing calls for the MultiSend contract (multisend/multisend.go). */
module Multisend {
  import opened Words

  /** Data as Go can hold it: a slice's length fits an int64. */
  type Data = b: Bytes | |b| < TWO_63 witness []

  /** The fields of a transaction that are packed; no recipient means contract creation. The value is a
      big integer of either sign. */
  datatype Call = Call(to: Option<Address>, value: int, data: Data)

  const SELECTOR: Bytes := [0x8D, 0x80, 0xFF, 0x0A]

  /** The original panics on any other transaction. */
  predicate Packable(tx: Call) {
    tx.to.Some? && Abs(tx.value) < Pow256(32)
  }

  predicate AllPackable(txs: seq<Call>) {
    forall i :: 0 <= i < |txs| ==> Packable(txs[i])
  }

  /** What is packed says the magnitude of the value and not its sign. */
  function Packed(tx: Call): Bytes
    requires Packable(tx)
  {
    [0] + tx.to.value + FillBytes(Abs(tx.value), 32) + FillBytes(|tx.data|, 32) + tx.data
  }

  function Payload(txs: seq<Call>): Bytes
    requires AllPackable(txs)
  {
    if txs == [] then [] else Packed(txs[0]) + Payload(txs[1..])
  }

  /** How the contract reads one call: operation, recipient, value, length, data. */
  function ParseOne(b: Bytes): Option<(Call, Bytes)> {
    if |b| < 85 || b[0] != 0 then None
    else
      var n := ToNat(b[53..85]);
      if n > |b| - 85 || n >= TWO_63 then None
      else Some((Call(Some(b[1..21]), ToNat(b[21..53]), b[85..85 + n]), b[85 + n..]))
  }

  function Parse(b: Bytes): Option<seq<Call>> {
    if b == [] then Some([])
    else
      match ParseOne(b)
      case None => None
      case Some((tx, rest)) =>
        match Parse(rest)
        case None => None
        case Some(txs) => Some([tx] + txs)
  }

  lemma LengthFits()
    ensures TWO_63 < Pow256(32)
  {
    assert Pow256(8) == TWO_64;
    PowGrows(8, 32);
  }

  lemma {:induction false} PowGrows(a: nat, b: nat)
    requires a <= b
    ensures Pow256(a) <= Pow256(b)
    decreases b
  {
    if a < b {
      PowGrows(a, b - 1);
    }
  }

  /** The call without the sign of its value. */
  function Magnitude(tx: Call): Call {
    tx.(value := Abs(tx.value))
  }

  function Magnitudes(txs: seq<Call>): (r: seq<Call>)
    ensures |r| == |txs| && forall i :: 0 <= i < |txs| ==> r[i] == Magnitude(txs[i])
  {
    seq(|txs|, i requires 0 <= i < |txs| => Magnitude(txs[i]))
  }

  ghost predicate NonNegative(txs: seq<Call>) {
    forall i :: 0 <= i < |txs| ==> txs[i].value >= 0
  }

  lemma PackedParses(tx: Call, rest: Bytes)
    requires Packable(tx)
    ensures ParseOne(Packed(tx) + rest) == Some((Magnitude(tx), rest))
  {
    hide FillBytes, Pow256, ToNat;
    LengthFits();
    FillBytesRoundTrip(Abs(tx.value), 32);
    FillBytesRoundTrip(|tx.data|, 32);
    var b := Packed(tx) + rest;
    assert b[1..21] == tx.to.value;
    assert b[21..53] == FillBytes(Abs(tx.value), 32);
    assert b[53..85] == FillBytes(|tx.data|, 32);
    assert b[85..85 + |tx.data|] == tx.data;
    assert b[85 + |tx.data|..] == rest;
  }

  /** Where the fields stand: operation 0, recipient, value, length, data. */
  ghost predicate Laid(b: Bytes, tx: Call) {
    && |b| == 85 + |tx.data| && b[0] == 0 && Some(b[1..21]) == tx.to
    && (ToNat(b[21..53]) == tx.value || ToNat(b[21..53]) == -tx.value)
    && ToNat(b[53..85]) == |tx.data| && b[85..] == tx.data
  }

  lemma PackedLaid(tx: Call)
    requires Packable(tx)
    ensures Laid(Packed(tx), tx)
  {
    hide FillBytes, Pow256, ToNat;
    LengthFits();
    FillBytesRoundTrip(Abs(tx.value), 32);
    FillBytesRoundTrip(|tx.data|, 32);
    var b := Packed(tx);
    assert b[1..21] == tx.to.value;
    assert b[21..53] == FillBytes(Abs(tx.value), 32);
    assert b[53..85] == FillBytes(|tx.data|, 32);
    assert b[85..] == tx.data;
  }

  /** Where the parts of call data stand: selector, offset, length, payload, zeros up to a whole word. */
  ghost predicate CallLaid(b: Bytes, payload: Bytes) {
    && |b| >= 68 + |payload| && |b| % 32 == 4 && |b| < 68 + |payload| + 32
    && b[..4] == [0x8D, 0x80, 0xFF, 0x0A] && ToNat(b[4..36]) == 32 && ToNat(b[36..68]) == |payload|
    && b[68..68 + |payload|] == payload
    && forall i :: 68 + |payload| <= i < |b| ==> b[i] == 0
  }

  lemma CallDataLaid(payload: Bytes)
    requires |payload| < Pow256(32)
    ensures CallLaid(CallData(payload), payload)
  {
    hide FillBytes, Pow256, ToNat;
    LengthFits();
    FillBytesRoundTrip(32, 32);
    FillBytesRoundTrip(|payload|, 32);
    var b := CallData(payload);
    assert b[..4] == SELECTOR;
    assert b[4..36] == FillBytes(32, 32);
    assert b[36..68] == FillBytes(|payload|, 32);
    assert b[68..68 + |payload|] == payload;
  }

  lemma ParsedPacks(b: Bytes)
    requires ParseOne(b).Some?
    ensures var (tx, rest) := ParseOne(b).value; Packable(tx) && tx.value >= 0 && b == Packed(tx) + rest
  {
    hide FillBytes, Pow256, ToNat;
    ToNatRoundTrip(b[21..53]);
    ToNatRoundTrip(b[53..85]);
  }

  /** Packing and parsing are exact inverses: a byte string parses to a list of calls if and only if
      every call can be packed, no value is negative, and the string is their packing. */
  lemma {:induction false} ParseExact(txs: seq<Call>, b: Bytes)
    ensures Parse(b) == Some(txs) <==> AllPackable(txs) && NonNegative(txs) && Payload(txs) == b
    decreases |b|
  {
    hide Packed, ParseOne, Packable;
    if b == [] {
      if txs != [] && AllPackable(txs) {
        PackedNonEmpty(txs[0]);
      }
    } else if txs != [] {
      if Packable(txs[0]) {
        PackedNonEmpty(txs[0]);
        if AllPackable(txs[1..]) && NonNegative(txs) && b == Packed(txs[0]) + Payload(txs[1..]) {
          PackedParses(txs[0], Payload(txs[1..]));
          ParseExact(txs[1..], Payload(txs[1..]));
          assert [txs[0]] + txs[1..] == txs;
        }
      }
      if Parse(b) == Some(txs) {
        ParsedPacks(b);
        var (tx, rest) := ParseOne(b).value;
        PackedNonEmpty(tx);
        ParseExact(txs[1..], rest);
      }
    }
  }

  lemma PackedNonEmpty(tx: Call)
    requires Packable(tx)
    ensures |Packed(tx)| > 0
  {
  }

  lemma {:induction false} PayloadMagnitudes(txs: seq<Call>)
    requires AllPackable(txs)
    ensures AllPackable(Magnitudes(txs)) && NonNegative(Magnitudes(txs)) && Payload(Magnitudes(txs)) == Payload(txs)
    decreases |txs|
  {
    if txs != [] {
      PayloadMagnitudes(txs[1..]);
      assert Magnitudes(txs)[1..] == Magnitudes(txs[1..]);
    }
  }

  /** The packed bytes tell the calls apart, up to the sign of a value. */
  lemma PayloadInjective(a: seq<Call>, b: seq<Call>)
    requires AllPackable(a) && AllPackable(b)
    ensures Payload(a) == Payload(b) <==> Magnitudes(a) == Magnitudes(b)
  {
    PayloadMagnitudes(a);
    PayloadMagnitudes(b);
    ParseExact(Magnitudes(a), Payload(a));
    ParseExact(Magnitudes(b), Payload(b));
  }

  /** The argument encoding of one dynamic `bytes` value after the selector: its offset, its length,
      its content padded with zeros to whole words. */
  function CallData(payload: Bytes): Bytes {
    SELECTOR + FillBytes(32, 32) + FillBytes(|payload|, 32) + payload + Zeros(Padding(|payload|))
  }

  function Padding(n: nat): nat {
    (32 - n % 32) % 32
  }

  /** A strict reading of such call data. */
  function Unwrap(b: Bytes): Option<Bytes> {
    if |b| < 68 || b[..4] != SELECTOR || ToNat(b[4..36]) != 32 then None
    else
      var n := ToNat(b[36..68]);
      if |b| != 68 + n + Padding(n) || b[68 + n..] != Zeros(Padding(n)) then None
      else Some(b[68..68 + n])
  }

  lemma UnwrapExact(payload: Bytes, b: Bytes)
    requires |payload| < Pow256(32)
    ensures Unwrap(b) == Some(payload) <==> b == CallData(payload)
  {
    hide FillBytes, Pow256, ToNat, Zeros, Padding;
    LengthFits();
    FillBytesRoundTrip(32, 32);
    FillBytesRoundTrip(|payload|, 32);
    if b == CallData(payload) {
      assert b[..4] == SELECTOR;
      assert b[4..36] == FillBytes(32, 32);
      assert b[36..68] == FillBytes(|payload|, 32);
      assert b[68..68 + |payload|] == payload;
      assert b[68 + |payload|..] == Zeros(Padding(|payload|));
    }
    if Unwrap(b) == Some(payload) {
      ToNatRoundTrip(b[4..36]);
      ToNatRoundTrip(b[36..68]);
      assert b == b[..4] + b[4..36] + b[36..68] + b[68..68 + |payload|] + b[68 + |payload|..];
    }
  }

  /** One call, appended field by field; None where the original panics. */
  method BuildTransaction(tx: Call) returns (ret: Option<Bytes>)
    ensures ret.Some? <==> Packable(tx)
    ensures ret.Some? ==> ret.value == Packed(tx) && ParseOne(ret.value) == Some((Magnitude(tx), []))
    ensures ret.Some? ==> Laid(ret.value, tx)
  {
    hide FillBytes, Pow256, ParseOne, Abs;
    if tx.to.None? || Abs(tx.value) >= Pow256(32) {
      return None;
    }
    var b: Bytes := [];
    b := b + [0];
    b := b + tx.to.value;
    b := b + FillBytes(Abs(tx.value), 32);
    b := b + FillBytes(|tx.data|, 32);
    b := b + tx.data;
    PackedParses(tx, []);
    assert Packed(tx) + [] == Packed(tx);
    PackedLaid(tx);
    ret := Some(b);
  }

  lemma {:induction false} PayloadSnoc(txs: seq<Call>, tx: Call)
    requires AllPackable(txs) && Packable(tx)
    ensures AllPackable(txs + [tx]) && Payload(txs + [tx]) == Payload(txs) + Packed(tx)
  {
    hide Packed, Packable;
    if txs == [] {
      assert Payload([tx]) == Packed(tx) + Payload([]);
    } else {
      PayloadSnoc(txs[1..], tx);
      assert (txs + [tx])[1..] == txs[1..] + [tx];
    }
  }

  /** The call data for a list of transactions reads back as that list, if no value is negative. */
  method BuildTransactions(txs: seq<Call>) returns (ret: Option<Bytes>)
    ensures ret.Some? <==> AllPackable(txs)
    ensures ret.Some? ==> ret.value == CallData(Payload(txs))
    ensures ret.Some? && |Payload(txs)| < Pow256(32) ==>
              Unwrap(ret.value) == Some(Payload(txs)) && Parse(Payload(txs)) == Some(Magnitudes(txs)) &&
              CallLaid(ret.value, Payload(txs))
    ensures NonNegative(txs) <==> Magnitudes(txs) == txs
  {
    hide Packed, Packable, Pow256, CallData, CallLaid, Unwrap;
    var args: Bytes := [];
    var i := 0;
    while i < |txs|
      invariant i <= |txs| && AllPackable(txs[..i])
      invariant args == Payload(txs[..i])
    {
      var one := BuildTransaction(txs[i]);
      if one.None? {
        return None;
      }
      PayloadSnoc(txs[..i], txs[i]);
      assert txs[..i + 1] == txs[..i] + [txs[i]];
      args := args + one.value;
      i := i + 1;
    }
    assert txs[..i] == txs;
    ret := Some(CallData(args));
    PayloadMagnitudes(txs);
    ParseExact(Magnitudes(txs), args);
    if |args| < Pow256(32) {
      CallDataLaid(args);
      UnwrapExact(args, ret.value);
    }
  }
}
