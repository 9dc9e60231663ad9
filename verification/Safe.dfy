/** The approve-hash signatures of a Safe transaction (multisend/safe.go): the participants are
    sorted in place and one 65-byte record is written for each. */
module Safe {
  import opened Words
  import opened Sequences

  /** addr.Hash().Big(): the number the participants are sorted by. */
  function Number(a: Address): nat {
    ToNat(FitRight(a, 32))
  }

  ghost predicate Ascending(s: seq<Address>) {
    forall i, j :: 0 <= i < j < |s| ==> Number(s[i]) <= Number(s[j])
  }

  ghost predicate StrictlyAscending(s: seq<Address>) {
    forall i, j :: 0 <= i < j < |s| ==> Number(s[i]) < Number(s[j])
  }

  ghost predicate Distinct(s: seq<Address>) {
    forall i, j :: 0 <= i < j < |s| ==> s[i] != s[j]
  }

  lemma NumberInjective(a: Address, b: Address)
    requires Number(a) == Number(b)
    ensures a == b
  {
    ToNatInjective(FitRight(a, 32), FitRight(b, 32));
    assert a == FitRight(a, 32)[12..] && b == FitRight(b, 32)[12..];
  }

  /** The order is the order of the addresses as numbers. */
  lemma NumberIsValue(a: Address)
    ensures Number(a) == ToNat(a)
  {
    LeadingZeros(12, a);
  }

  ghost predicate InOrder(s: seq<Address>) {
    forall i, j :: 0 <= i < j < |s| ==> ToNat(s[i]) <= ToNat(s[j])
  }

  lemma AscendingIsInOrder(s: seq<Address>)
    ensures Ascending(s) <==> InOrder(s)
  {
    hide Number;
    forall i | 0 <= i < |s| ensures Number(s[i]) == ToNat(s[i]) {
      NumberIsValue(s[i]);
    }
  }

  // ----- The sort -----

  /** All of s[..n + 1] is in order, but for s[j], which may have to move further down. */
  ghost predicate Sifted(s: seq<Address>, n: nat, j: nat)
    requires j <= n < |s|
  {
    forall p, q :: 0 <= p < q <= n && q != j ==> Number(s[p]) <= Number(s[q])
  }

  function Swapped(s: seq<Address>, j: nat): seq<Address>
    requires 0 < j < |s|
  {
    s[j := s[j - 1]][j - 1 := s[j]]
  }

  lemma SiftDown(s: seq<Address>, n: nat, j: nat)
    requires 0 < j <= n < |s| && Sifted(s, n, j) && Number(s[j]) < Number(s[j - 1])
    ensures Sifted(Swapped(s, j), n, j - 1) && multiset(Swapped(s, j)) == multiset(s)
    ensures Swapped(s, j)[n + 1..] == s[n + 1..]
  {
    hide Number;
  }

  lemma SiftEnds(s: seq<Address>, n: nat, j: nat)
    requires j <= n < |s| && Sifted(s, n, j)
    requires j > 0 ==> Number(s[j - 1]) <= Number(s[j])
    ensures Ascending(s[..n + 1])
  {
    hide Number;
    forall p, q | 0 <= p < q <= n ensures Number(s[p]) <= Number(s[q]) {
      if q == j && p < j - 1 {
        assert Number(s[p]) <= Number(s[j - 1]);
      }
    }
  }

  /** The inner loop of an insertion sort, which is what sort.Slice runs on short slices. */
  method Insert(a: array<Address>, n: nat)
    requires n < a.Length && Ascending(a[..n])
    modifies a
    ensures Ascending(a[..n + 1]) && a[n + 1..] == old(a[n + 1..])
    ensures multiset(a[..]) == multiset(old(a[..]))
  {
    hide Number, Sifted, Ascending;
    var j := n;
    assert Sifted(a[..], n, j) by {
      assert a[..][..n] == a[..n];
      SiftStarts(a[..], n);
    }
    while j > 0 && Number(a[j]) < Number(a[j - 1])
      invariant 0 <= j <= n && Sifted(a[..], n, j)
      invariant a[..][n + 1..] == old(a[..])[n + 1..]
      invariant multiset(a[..]) == multiset(old(a[..]))
    {
      ghost var s := a[..];
      SiftDown(s, n, j);
      a[j], a[j - 1] := a[j - 1], a[j];
      assert a[..] == Swapped(s, j);
      j := j - 1;
    }
    SiftEnds(a[..], n, j);
    assert a[..n + 1] == a[..][..n + 1];
  }

  lemma SiftStarts(s: seq<Address>, n: nat)
    requires n < |s| && Ascending(s[..n])
    ensures Sifted(s, n, n)
  {
    hide Number;
    forall p, q | 0 <= p < q < n ensures Number(s[p]) <= Number(s[q]) {
      assert s[..n][p] == s[p] && s[..n][q] == s[q];
    }
  }

  method Sort(a: array<Address>)
    modifies a
    ensures InOrder(a[..]) && multiset(a[..]) == multiset(old(a[..]))
    ensures Ascending(a[..])
  {
    hide Number, InOrder;
    var n := 0;
    while n < a.Length
      invariant n <= a.Length && Ascending(a[..n])
      invariant multiset(a[..]) == multiset(old(a[..]))
    {
      Insert(a, n);
      n := n + 1;
    }
    assert a[..n] == a[..];
    AscendingIsInOrder(a[..]);
  }

  lemma LeastFirst(s: seq<Address>, x: Address)
    requires Ascending(s) && x in multiset(s)
    ensures s != [] && Number(s[0]) <= Number(x)
  {
    hide Number;
    var i :| 0 <= i < |s| && s[i] == x;
  }

  lemma TailCounts(s: seq<Address>)
    requires s != []
    ensures multiset(s[1..]) == multiset(s) - multiset{s[0]}
  {
    assert s == [s[0]] + s[1..];
  }

  lemma TailAscends(s: seq<Address>)
    requires Ascending(s) && s != []
    ensures Ascending(s[1..])
  {
    hide Number;
  }

  /** Equal numbers are equal addresses, so there is one ascending order only: what any other sorting
      algorithm makes of the same participants is the same list. */
  lemma {:induction false} AscendingUnique(s: seq<Address>, t: seq<Address>)
    requires Ascending(s) && Ascending(t) && multiset(s) == multiset(t)
    ensures s == t
  {
    hide Number, Ascending;
    assert |s| == |multiset(s)| == |multiset(t)| == |t|;
    if s != [] {
      assert s[0] in multiset(s) && t[0] in multiset(t);
      LeastFirst(s, t[0]);
      LeastFirst(t, s[0]);
      NumberInjective(s[0], t[0]);
      TailCounts(s);
      TailCounts(t);
      TailAscends(s);
      TailAscends(t);
      AscendingUnique(s[1..], t[1..]);
      assert s == [s[0]] + s[1..] && t == [t[0]] + t[1..];
    }
  }

  /** The contract's strict order check passes exactly when no participant is listed twice. */
  lemma StrictExactly(s: seq<Address>)
    requires Ascending(s)
    ensures StrictlyAscending(s) <==> Distinct(s)
  {
    hide Number;
    forall i, j | 0 <= i < j < |s| && Distinct(s) ensures Number(s[i]) < Number(s[j]) {
      if Number(s[i]) == Number(s[j]) {
        NumberInjective(s[i], s[j]);
      }
    }
  }

  lemma {:induction false} SameCounts(s: seq<Address>, t: seq<Address>)
    requires multiset(s) == multiset(t) && Distinct(s)
    ensures Distinct(t)
  {
    forall i, j | 0 <= i < j < |t| ensures t[i] != t[j] {
      if t[i] == t[j] {
        Twice(t, i, j);
        AtMostOnce(s, t[i]);
      }
    }
  }

  lemma {:induction false} AtMostOnce(s: seq<Address>, x: Address)
    requires Distinct(s)
    ensures multiset(s)[x] <= 1
  {
    if s != [] {
      assert s == [s[0]] + s[1..];
      AtMostOnce(s[1..], x);
    }
  }

  // ----- The records -----

  /** One signature as the contract splits it. */
  datatype Record = Record(r: Hash, s: Hash, v: Byte)

  function Approval(a: Address): Record {
    Record(FitRight(a, 32), ZERO_HASH, 1)
  }

  /** The record at position i of a signature blob. */
  function RecordAt(blob: Bytes, i: nat): Record
    requires 65 * i + 65 <= |blob|
  {
    Record(blob[65 * i..65 * i + 32], blob[65 * i + 32..65 * i + 64], blob[65 * i + 64])
  }

  /** The owner an approved-hash record names. */
  function OwnerOf(x: Record): Address {
    FitRight(x.r, 20)
  }

  ghost predicate Approves(blob: Bytes, owners: seq<Address>) {
    && |blob| == 65 * |owners|
    && forall i :: 0 <= i < |owners| ==> RecordAt(blob, i) == Approval(owners[i])
  }

  lemma OwnerSurvives(a: Address)
    ensures OwnerOf(Approval(a)) == a
  {
  }

  /** The records determine the blob, and the blob the owners. */
  lemma ApprovesExact(b: Bytes, c: Bytes, owners: seq<Address>, others: seq<Address>)
    requires Approves(b, owners) && Approves(c, others)
    ensures b == c <==> owners == others
  {
    hide FitRight;
    if owners == others {
      forall k | 0 <= k < |b| ensures b[k] == c[k] {
        var i, d := k / 65, k % 65;
        assert RecordAt(b, i) == RecordAt(c, i);
        if d < 32 {
          assert b[k] == RecordAt(b, i).r[d] && c[k] == RecordAt(c, i).r[d];
        } else if d < 64 {
          assert b[k] == RecordAt(b, i).s[d - 32] && c[k] == RecordAt(c, i).s[d - 32];
        }
      }
    }
    if b == c {
      forall i | 0 <= i < |owners| ensures owners[i] == others[i] {
        assert RecordAt(b, i) == RecordAt(c, i);
        OwnerSurvives(owners[i]);
        OwnerSurvives(others[i]);
      }
    }
  }

  /** A record depends on its own 65 bytes alone. */
  lemma SameRecord(b: Bytes, c: Bytes, i: nat)
    requires 65 * i + 65 <= |b| == |c| && b[65 * i..65 * i + 65] == c[65 * i..65 * i + 65]
    ensures RecordAt(b, i) == RecordAt(c, i)
  {
    var lo, hi := 65 * i, 65 * i + 65;
    SliceOfSlice(b, lo, hi, 0, 32);
    SliceOfSlice(c, lo, hi, 0, 32);
    SliceOfSlice(b, lo, hi, 32, 64);
    SliceOfSlice(c, lo, hi, 32, 64);
    assert b[lo + 64] == b[lo..hi][64] && c[lo + 64] == c[lo..hi][64];
  }

  /** What one round writes: the padded owner and the final 1, over zeros. */
  lemma RoundWrites(b: Bytes, i: nat, a: Address)
    requires 65 * i + 65 <= |b| && b[65 * i..65 * i + 32] == FitRight(a, 32)
    requires b[65 * i + 32..65 * i + 64] == Zeros(32) && b[65 * i + 64] == 1
    ensures RecordAt(b, i) == Approval(a)
  {
  }

  /** The first n records are written, the rest of the buffer is zero. */
  ghost predicate WrittenTo(b: Bytes, addrs: seq<Address>, n: nat) {
    && n <= |addrs| && |b| == 65 * |addrs|
    && (forall p :: 0 <= p < n ==> RecordAt(b, p) == Approval(addrs[p]))
    && forall k :: 65 * n <= k < |b| ==> b[k] == 0
  }

  lemma OneMoreWritten(b: Bytes, c: Bytes, addrs: seq<Address>, n: nat)
    requires n < |addrs| && WrittenTo(b, addrs, n) && |c| == |b|
    requires c[..65 * n] == b[..65 * n] && c[65 * n + 65..] == b[65 * n + 65..]
    requires c[65 * n..65 * n + 32] == FitRight(addrs[n], 32)
    requires c[65 * n + 32..65 * n + 64] == b[65 * n + 32..65 * n + 64] && c[65 * n + 64] == 1
    ensures WrittenTo(c, addrs, n + 1)
  {
    hide FitRight, RecordAt, Approval;
    forall p | 0 <= p < n ensures RecordAt(c, p) == Approval(addrs[p]) {
      assert c[65 * p..65 * p + 65] == c[..65 * n][65 * p..65 * p + 65];
      assert b[65 * p..65 * p + 65] == b[..65 * n][65 * p..65 * p + 65];
      SameRecord(b, c, p);
    }
    assert b[65 * n + 32..65 * n + 64] == Zeros(32);
    RoundWrites(c, n, addrs[n]);
    forall k | 65 * n + 65 <= k < |c| ensures c[k] == 0 {
      assert c[k] == c[65 * n + 65..][k - 65 * n - 65] && b[k] == b[65 * n + 65..][k - 65 * n - 65];
    }
  }

  /** genApproveHashSigs: copies into a zeroed buffer at a stride of 65 bytes. */
  method GenApproveHashSigs(addrs: seq<Address>) returns (sigs: Bytes)
    ensures Approves(sigs, addrs)
  {
    hide FitRight, RecordAt, Approval;
    var buf := new Byte[65 * |addrs|](_ => 0);
    var i := 0;
    while i < |addrs|
      invariant i <= |addrs| && WrittenTo(buf[..], addrs, i)
    {
      hide WrittenTo;
      ghost var before := buf[..];
      var word := FitRight(addrs[i], 32);
      forall d | 0 <= d < 32 {
        buf[65 * i + d] := word[d];
      }
      buf[65 * i + 64] := 1;
      assert buf[65 * i..65 * i + 32] == word;
      OneMoreWritten(before, buf[..], addrs, i);
      i := i + 1;
    }
    sigs := buf[..];
  }

  /** The 32-byte word at position i of a signature blob, as a number. */
  function OwnerWord(sigs: Bytes, i: nat): nat
    requires 65 * i + 65 <= |sigs|
  {
    ToNat(sigs[65 * i..65 * i + 32])
  }

  /** What the records say byte by byte, in terms of the owners as numbers. */
  lemma RecordLayout(sigs: Bytes, owners: seq<Address>, i: nat)
    requires Approves(sigs, owners) && i < |owners|
    ensures 65 * i + 65 <= |sigs|
    ensures sigs[65 * i..65 * i + 12] == Zeros(12) && sigs[65 * i + 12..65 * i + 32] == owners[i]
    ensures sigs[65 * i + 32..65 * i + 64] == Zeros(32) && sigs[65 * i + 64] == 1
    ensures OwnerWord(sigs, i) == ToNat(owners[i]) && OwnerOf(RecordAt(sigs, i)) == owners[i]
  {
    var x := RecordAt(sigs, i);
    assert x == Approval(owners[i]) && x.r == Zeros(12) + owners[i];
    LeadingZeros(12, owners[i]);
    OwnerSurvives(owners[i]);
    SliceOfSlice(sigs, 65 * i, 65 * i + 32, 0, 12);
    SliceOfSlice(sigs, 65 * i, 65 * i + 32, 12, 32);
    assert x.r[0..12] == Zeros(12) && x.r[12..32] == owners[i];
  }

  /** The signatures GenSafeCalldataWithApproveHash sends: the participants, sorted in place, one
      record each, in the order of the owners as numbers; strictly so, which is what the contract
      demands, if and only if the participants were distinct. */
  method SortedApproveHashSigs(participants: array<Address>) returns (sigs: Bytes)
    modifies participants
    ensures multiset(participants[..]) == multiset(old(participants[..]))
    ensures |sigs| == 65 * participants.Length && Approves(sigs, participants[..])
    ensures forall i :: 0 <= i < participants.Length ==>
              && sigs[65 * i..65 * i + 12] == Zeros(12) && sigs[65 * i + 12..65 * i + 32] == participants[i]
              && sigs[65 * i + 32..65 * i + 64] == Zeros(32) && sigs[65 * i + 64] == 1
              && OwnerOf(RecordAt(sigs, i)) == participants[i]
    ensures forall i, j :: 0 <= i < j < participants.Length ==> OwnerWord(sigs, i) <= OwnerWord(sigs, j)
    ensures (forall i, j :: 0 <= i < j < participants.Length ==> OwnerWord(sigs, i) < OwnerWord(sigs, j)) <==>
            Distinct(old(participants[..]))
    ensures Ascending(participants[..])
    ensures StrictlyAscending(participants[..]) <==> Distinct(old(participants[..]))
  {
    hide Number, RecordAt, OwnerWord, OwnerOf, Approval;
    Sort(participants);
    sigs := GenApproveHashSigs(participants[..]);
    forall i | 0 <= i < participants.Length
      ensures OwnerWord(sigs, i) == ToNat(participants[i]) == Number(participants[i])
      ensures sigs[65 * i..65 * i + 12] == Zeros(12) && sigs[65 * i + 12..65 * i + 32] == participants[i]
      ensures sigs[65 * i + 32..65 * i + 64] == Zeros(32) && sigs[65 * i + 64] == 1
      ensures OwnerOf(RecordAt(sigs, i)) == participants[i]
    {
      RecordLayout(sigs, participants[..], i);
      NumberIsValue(participants[i]);
    }
    StrictExactly(participants[..]);
    if Distinct(old(participants[..])) {
      SameCounts(old(participants[..]), participants[..]);
    }
    if Distinct(participants[..]) {
      SameCounts(participants[..], old(participants[..]));
    }
  }
}
