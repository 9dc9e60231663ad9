/** Balances through the layers (mferstate/overlaystatedb.go): guarded transfers conserve money. */
module Balances {
  import opened Words
  import opened Keys
  import opened Upstream
  import opened Layers

  function BalanceOf(root: Root, f: Flat, a: Address): nat {
    ToNat(Read(root, f, Balance(a)))
  }

  /** SubBalance and AddBalance: read through the layers, write the magnitude of the result to the
      top one. */
  function SubBalance(root: Root, ls: seq<Layer>, a: Address, amount: nat): seq<Layer>
    requires ls != []
  {
    var post := ToNat(Walk(root, ls, Balance(a))) - amount;
    OnTop(ls, PutLayer(Top(ls), Raw(Balance(a)), BigEndian(Abs(post))))
  }

  function AddBalance(root: Root, ls: seq<Layer>, a: Address, amount: nat): seq<Layer>
    requires ls != []
  {
    var post := ToNat(Walk(root, ls, Balance(a))) + amount;
    OnTop(ls, PutLayer(Top(ls), Raw(Balance(a)), BigEndian(post)))
  }

  datatype Move =
    | Pay(from: Address, to: Address, amount: nat)
    | Save
    | Undo(revision: nat)

  /** A transfer is guarded by CanTransfer and stays within the account set; a revert is live. */
  predicate Guarded(root: Root, ls: seq<Layer>, base: nat, accounts: seq<Address>, move: Move) {
    match move
    case Pay(from, to, amount) =>
      from in accounts && to in accounts && amount <= ToNat(Walk(root, ls, Balance(from)))
    case Save => true
    case Undo(id) => Live(id, base, |ls|)
  }

  function Moved(root: Root, ls: seq<Layer>, base: nat, accounts: seq<Address>, move: Move): (r: seq<Layer>)
    requires 1 <= base <= |ls| && Guarded(root, ls, base, accounts, move)
    ensures base <= |r|
  {
    match move
    case Pay(from, to, amount) => AddBalance(root, SubBalance(root, ls, from, amount), to, amount)
    case Save => Pushed(ls)
    case Undo(id) => ls[..id - 1]
  }

  predicate GuardedRun(root: Root, ls: seq<Layer>, base: nat, accounts: seq<Address>, moves: seq<Move>)
    requires 1 <= base <= |ls|
    decreases |moves|
  {
    moves == [] ||
    (Guarded(root, ls, base, accounts, moves[0]) &&
     GuardedRun(root, Moved(root, ls, base, accounts, moves[0]), base, accounts, moves[1..]))
  }

  function MovedAll(root: Root, ls: seq<Layer>, base: nat, accounts: seq<Address>, moves: seq<Move>): (r: seq<Layer>)
    requires 1 <= base <= |ls| && GuardedRun(root, ls, base, accounts, moves)
    decreases |moves|
  {
    if moves == [] then ls
    else MovedAll(root, Moved(root, ls, base, accounts, moves[0]), base, accounts, moves[1..])
  }

  function Total(root: Root, f: Flat, accounts: seq<Address>): nat {
    if accounts == [] then 0 else BalanceOf(root, f, accounts[0]) + Total(root, f, accounts[1..])
  }

  ghost predicate Distinct(accounts: seq<Address>) {
    forall i, j :: 0 <= i < j < |accounts| ==> accounts[i] != accounts[j]
  }

  /** The guard is what makes the stored magnitude a difference: without it money is made. */
  lemma SubBalanceExact(root: Root, ls: seq<Layer>, a: Address, amount: nat)
    requires ls != []
    ensures var before := BalanceOf(root, Flatten(ls), a);
            var after := BalanceOf(root, Flatten(SubBalance(root, ls, a, amount)), a);
            && (after == before - amount <==> amount <= before)
            && (amount > before ==> after == amount - before)
  {
    var n := Abs(ToNat(Walk(root, ls, Balance(a))) - amount);
    WalkIsRead(root, ls, Balance(a));
    FlattenPut(ls, Raw(Balance(a)), BigEndian(n));
    BigEndianRoundTrip(n);
  }

  lemma BalancePut(root: Root, f: Flat, a: Address, n: nat, b: Address)
    ensures BalanceOf(root, PutFlat(f, Raw(Balance(a)), BigEndian(n)), b) == if b == a then n else BalanceOf(root, f, b)
  {
    BigEndianRoundTrip(n);
    RawInjective(Balance(a), Balance(b));
  }

  lemma {:induction false} TotalPut(root: Root, f: Flat, accounts: seq<Address>, a: Address, n: nat)
    requires Distinct(accounts)
    ensures Total(root, PutFlat(f, Raw(Balance(a)), BigEndian(n)), accounts) ==
            Total(root, f, accounts) + if a in accounts then n - BalanceOf(root, f, a) else 0
    decreases |accounts|
  {
    if accounts != [] {
      BalancePut(root, f, a, n, accounts[0]);
      TotalPut(root, f, accounts[1..], a, n);
    }
  }

  lemma SubTotal(root: Root, ls: seq<Layer>, accounts: seq<Address>, a: Address, amount: nat)
    requires ls != [] && Distinct(accounts) && a in accounts && amount <= ToNat(Walk(root, ls, Balance(a)))
    ensures Total(root, Flatten(SubBalance(root, ls, a, amount)), accounts) ==
            Total(root, Flatten(ls), accounts) - amount
  {
    hide Raw, Flatten, BigEndian, ToNat;
    WalkIsRead(root, ls, Balance(a));
    var left := BalanceOf(root, Flatten(ls), a) - amount;
    FlattenPut(ls, Raw(Balance(a)), BigEndian(left));
    TotalPut(root, Flatten(ls), accounts, a, left);
  }

  lemma AddTotal(root: Root, ls: seq<Layer>, accounts: seq<Address>, a: Address, amount: nat)
    requires ls != [] && Distinct(accounts) && a in accounts
    ensures Total(root, Flatten(AddBalance(root, ls, a, amount)), accounts) ==
            Total(root, Flatten(ls), accounts) + amount
  {
    hide Raw, Flatten, BigEndian, ToNat;
    WalkIsRead(root, ls, Balance(a));
    var gain := BalanceOf(root, Flatten(ls), a) + amount;
    FlattenPut(ls, Raw(Balance(a)), BigEndian(gain));
    TotalPut(root, Flatten(ls), accounts, a, gain);
  }

  /** One guarded transfer, to another account or to oneself, keeps the total. */
  lemma PayKeepsTotal(root: Root, ls: seq<Layer>, base: nat, accounts: seq<Address>, move: Move)
    requires 1 <= base <= |ls| && Guarded(root, ls, base, accounts, move) && move.Pay? && Distinct(accounts)
    ensures Total(root, Flatten(Moved(root, ls, base, accounts, move)), accounts) ==
            Total(root, Flatten(ls), accounts)
  {
    hide Raw, Flatten, BigEndian, ToNat;
    SubTotal(root, ls, accounts, move.from, move.amount);
    AddTotal(root, SubBalance(root, ls, move.from, move.amount), accounts, move.to, move.amount);
  }

  /** Every depth a revert can return to holds the same total. */
  ghost predicate AllLevels(root: Root, ls: seq<Layer>, base: nat, accounts: seq<Address>, total: nat) {
    forall i :: base <= i <= |ls| ==> Total(root, Flatten(ls[..i]), accounts) == total
  }

  lemma MoveKeepsLevels(root: Root, ls: seq<Layer>, base: nat, accounts: seq<Address>, move: Move, total: nat)
    requires 1 <= base <= |ls| && Guarded(root, ls, base, accounts, move) && Distinct(accounts)
    requires AllLevels(root, ls, base, accounts, total)
    ensures AllLevels(root, Moved(root, ls, base, accounts, move), base, accounts, total)
  {
    hide Raw, Flatten, BigEndian, ToNat, Total;
    var ls' := Moved(root, ls, base, accounts, move);
    assert ls[..|ls|] == ls;
    if move.Pay? {
      PayKeepsTotal(root, ls, base, accounts, move);
    }
    if move.Save? {
      FlattenPushed(ls);
      SameBalances(root, Flatten(ls), SnapFlat(Flatten(ls)), accounts);
    }
    forall i | base <= i <= |ls'| ensures Total(root, Flatten(ls'[..i]), accounts) == total {
      if i == |ls'| {
        assert ls'[..i] == ls';
      } else {
        assert ls'[..i] == ls[..i];
      }
    }
  }

  lemma {:induction false} SameBalances(root: Root, f: Flat, g: Flat, accounts: seq<Address>)
    requires f.view == g.view
    ensures Total(root, f, accounts) == Total(root, g, accounts)
    decreases |accounts|
  {
    if accounts != [] {
      SameBalances(root, f, g, accounts[1..]);
    }
  }

  /** Balance conservation: over every run of guarded transfers, snapshots and reverts, the sum of
      the balances of a set of accounts closed under the transfers does not change. */
  lemma {:induction false} Conservation(root: Root, ls: seq<Layer>, accounts: seq<Address>, moves: seq<Move>)
    requires ls != [] && Distinct(accounts) && GuardedRun(root, ls, |ls|, accounts, moves)
    ensures Total(root, Flatten(MovedAll(root, ls, |ls|, accounts, moves)), accounts) ==
            Total(root, Flatten(ls), accounts)
  {
    assert ls[..|ls|] == ls;
    ConservationFrom(root, ls, |ls|, accounts, moves, Total(root, Flatten(ls), accounts));
  }

  lemma {:induction false} ConservationFrom(
      root: Root, ls: seq<Layer>, base: nat, accounts: seq<Address>, moves: seq<Move>, total: nat)
    requires 1 <= base <= |ls| && Distinct(accounts) && GuardedRun(root, ls, base, accounts, moves)
    requires AllLevels(root, ls, base, accounts, total)
    ensures Total(root, Flatten(MovedAll(root, ls, base, accounts, moves)), accounts) == total
    decreases |moves|
  {
    if moves == [] {
      assert ls[..|ls|] == ls;
    } else {
      MoveKeepsLevels(root, ls, base, accounts, moves[0], total);
      ConservationFrom(root, Moved(root, ls, base, accounts, moves[0]), base, accounts, moves[1..], total);
    }
  }
}
