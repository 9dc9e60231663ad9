/** Chunked JSON-RPC batches (mferstate/overlaystate.go, loadAccountBatchRPC, loadStateBatchRPC).
    The network is the sequence of its batch-call failures, call number c fails iff fails(c), and of the
    single requests it answers with an error inside a batch that goes through: request j iff drops(j). */
module BatchFetch {
  import opened Words
  import opened Upstream

  datatype Elem =
    | GetTransactionCount(account: Address)
    | GetBalance(account: Address)
    | GetCode(account: Address)
    | GetStorageAt(account: Address, slot: Hash)

  /** The place an answer is decoded into; Blank is the zero value it holds before. */
  datatype Answer = Blank | Quantity(n: nat) | Data(bytes: Bytes)

  function Answered(chain: Chain, bn: nat, e: Elem): Answer {
    match e
    case GetTransactionCount(a) => Quantity(chain.account(bn, a).nonce)
    case GetBalance(a) => Quantity(chain.account(bn, a).balance)
    case GetCode(a) => Data(chain.account(bn, a).code)
    case GetStorageAt(a, slot) => Data(chain.storage(bn, a, slot))
  }

  /** The half-open ranges of list positions that the successive batch calls carry. */
  function Plan(begin: nat, total: nat, step: nat): seq<(nat, nat)>
    requires step >= 1
    decreases total - begin
  {
    if begin >= total then []
    else
      var end := if begin + step > total then total else begin + step;
      [(begin, end)] + Plan(begin + step, total, step)
  }

  lemma PlanUnfolds(begin: nat, total: nat, step: nat)
    requires step >= 1
    ensures Plan(begin, total, step) ==
      if begin >= total then []
      else [(begin, if begin + step > total then total else begin + step)] + Plan(begin + step, total, step)
  {
  }

  /** Consecutive, none empty, none larger than the batch size, all but the last that large, together
      everything. */
  ghost predicate Partitions(ranges: seq<(nat, nat)>, begin: nat, total: nat, step: nat) {
    && (forall i :: 0 <= i < |ranges| ==> 0 < ranges[i].1 - ranges[i].0 <= step)
    && (forall i :: 0 <= i < |ranges| - 1 ==> ranges[i].1 - ranges[i].0 == step)
    && (forall i :: 0 <= i < |ranges| ==> ranges[i].0 == if i == 0 then begin else ranges[i - 1].1)
    && (if ranges == [] then begin >= total else ranges[|ranges| - 1].1 == total)
  }

  lemma {:induction false} PlanPartitions(begin: nat, total: nat, step: nat)
    requires step >= 1 && begin <= total
    ensures Partitions(Plan(begin, total, step), begin, total, step)
    decreases total - begin
  {
    if begin < total && begin + step <= total {
      PlanPartitions(begin + step, total, step);
      var rest := Plan(begin + step, total, step);
      var all := Plan(begin, total, step);
      assert all == [(begin, begin + step)] + rest;
      forall i | 0 <= i < |all| ensures all[i].0 == if i == 0 then begin else all[i - 1].1 {
        if i > 0 {
          assert all[i] == rest[i - 1];
        }
      }
    } else if begin < total {
      assert Plan(begin + step, total, step) == [];
    }
  }

  /** How many of the first n calls fail. */
  function Failures(fails: nat -> bool, n: nat): nat {
    if n == 0 then 0 else Failures(fails, n - 1) + if fails(n - 1) then 1 else 0
  }

  lemma {:induction false} FailuresGrow(fails: nat -> bool, n: nat, m: nat)
    requires n <= m
    ensures Failures(fails, n) <= Failures(fails, m) <= Failures(fails, n) + (m - n)
    decreases m - n
  {
    if n < m {
      FailuresGrow(fails, n, m - 1);
    }
  }

  /** The chunks sent are the beginning of the plan, and the rest of it starts at `begin`. */
  ghost predicate OnPlan(sent: seq<(nat, nat)>, begin: nat, total: nat, step: nat)
    requires step >= 1
  {
    sent + Plan(begin, total, step) == Plan(0, total, step)
  }

  lemma NextOnPlan(sent: seq<(nat, nat)>, begin: nat, total: nat, step: nat)
    requires step >= 1 && OnPlan(sent, begin, total, step) && begin < total
    ensures OnPlan(sent + [(begin, if begin + step > total then total else begin + step)], begin + step, total, step)
    ensures |sent| < |Plan(0, total, step)|
  {
    var next, rest := (begin, if begin + step > total then total else begin + step), Plan(begin + step, total, step);
    PlanUnfolds(begin, total, step);
    assert sent + ([next] + rest) == (sent + [next]) + rest;
  }

  lemma EndOfPlan(sent: seq<(nat, nat)>, begin: nat, total: nat, step: nat)
    requires step >= 1 && OnPlan(sent, begin, total, step) && begin >= total
    ensures sent == Plan(0, total, step)
  {
  }

  lemma {:induction false} NoFailures(fails: nat -> bool, n: nat)
    ensures Failures(fails, n) == 0 <==> forall c :: 0 <= c < n ==> !fails(c)
  {
    if n != 0 {
      NoFailures(fails, n - 1);
    }
  }

  /** What request j of the list is left with: nobody looks at the error of a single request. */
  function Given(chain: Chain, bn: nat, elems: seq<Elem>, drops: nat -> bool, j: nat): Answer
    requires j < |elems|
  {
    if drops(j) then Blank else Answered(chain, bn, elems[j])
  }

  /** A batch call that goes through answers its range of the list. */
  function Fill(answers: seq<Answer>, chain: Chain, bn: nat, elems: seq<Elem>, drops: nat -> bool, begin: nat, end: nat)
    : (r: seq<Answer>)
    requires |answers| == |elems| && begin <= end <= |elems|
    ensures |r| == |elems|
    ensures forall j :: 0 <= j < |elems| ==>
      r[j] == if begin <= j < end then Given(chain, bn, elems, drops, j) else answers[j]
  {
    seq(|elems|, j requires 0 <= j < |elems| =>
      if begin <= j < end then Given(chain, bn, elems, drops, j) else answers[j])
  }

  /** Answer j of three per account, put back into a record; a blank is a zero value. */
  function Gathered(answers: seq<Answer>, i: nat): (r: Account)
    requires 3 * i + 2 < |answers|
  {
    var n, b, c := answers[3 * i], answers[3 * i + 1], answers[3 * i + 2];
    Account(if n.Quantity? && n.n < TWO_64 then n.n else 0, if b.Quantity? then b.n else 0,
            if c.Data? then c.bytes else [])
  }

  /** What is received for account i of the list. */
  function Received(acc: Account, drops: nat -> bool, i: nat): Account {
    Account(if drops(3 * i) then 0 else acc.nonce, if drops(3 * i + 1) then 0 else acc.balance,
            if drops(3 * i + 2) then [] else acc.code)
  }

  /** It is the account exactly if what was dropped was zero anyway. */
  lemma ReceivedExactly(acc: Account, drops: nat -> bool, i: nat)
    ensures Received(acc, drops, i) == acc <==>
      && (drops(3 * i) ==> acc.nonce == 0) && (drops(3 * i + 1) ==> acc.balance == 0)
      && (drops(3 * i + 2) ==> acc.code == [])
  {
  }

  /** The request list: for account i the elements 3i, 3i+1 and 3i+2. */
  function Requests(accounts: seq<Address>): (elems: seq<Elem>)
    ensures |elems| == 3 * |accounts|
    ensures forall i :: 0 <= i < |accounts| ==>
      && elems[3 * i] == GetTransactionCount(accounts[i])
      && elems[3 * i + 1] == GetBalance(accounts[i])
      && elems[3 * i + 2] == GetCode(accounts[i])
  {
    seq(3 * |accounts|, j requires 0 <= j < 3 * |accounts| =>
      if j % 3 == 0 then GetTransactionCount(accounts[j / 3])
      else if j % 3 == 1 then GetBalance(accounts[j / 3])
      else GetCode(accounts[j / 3]))
  }

  /** Once every element has its answer, every account has its own. */
  function GatherAll(answers: seq<Answer>, accounts: seq<Address>, chain: Chain, bn: nat, drops: nat -> bool)
    : (r: seq<Account>)
    requires |answers| == 3 * |accounts|
    requires forall j :: 0 <= j < |answers| ==> answers[j] == Given(chain, bn, Requests(accounts), drops, j)
    ensures |r| == |accounts|
    ensures forall i :: 0 <= i < |accounts| ==> r[i] == Received(chain.account(bn, accounts[i]), drops, i)
  {
    assert forall i :: 0 <= i < |accounts| ==>
      Gathered(answers, i) == Received(chain.account(bn, accounts[i]), drops, i)
    by {
      forall i | 0 <= i < |accounts|
        ensures Gathered(answers, i) == Received(chain.account(bn, accounts[i]), drops, i)
      {
        assert answers[3 * i] == Given(chain, bn, Requests(accounts), drops, 3 * i);
        assert answers[3 * i + 1] == Given(chain, bn, Requests(accounts), drops, 3 * i + 1);
        assert answers[3 * i + 2] == Given(chain, bn, Requests(accounts), drops, 3 * i + 2);
      }
    }
    seq(|accounts|, i requires 0 <= i < |accounts| => Gathered(answers, i))
  }

  /** The inner loop: repeat one batch call until it goes through or the sixth failure in all. */
  method CallWithRetries(fails: nat -> bool, made: nat, failed: nat) returns (ok: bool, calls: nat, rpcTries: nat)
    requires failed == Failures(fails, made) && failed <= 5
    ensures rpcTries == Failures(fails, calls)
    ensures ok ==> rpcTries <= 5 && calls - made == rpcTries - failed + 1
    ensures !ok ==> rpcTries == 6 && calls - made == rpcTries - failed
  {
    calls, rpcTries := made, failed;
    while fails(calls)
      invariant rpcTries == Failures(fails, calls) && rpcTries <= 5
      invariant calls - made == rpcTries - failed
      decreases 6 - rpcTries
    {
      calls, rpcTries := calls + 1, rpcTries + 1;
      if rpcTries > 5 {
        return false, calls, rpcTries;
      }
    }
    calls := calls + 1;
    ok := true;
  }

  /** The first n requests have what they are left with. */
  ghost predicate Filled(answers: seq<Answer>, chain: Chain, bn: nat, elems: seq<Elem>, drops: nat -> bool, n: int) {
    |answers| == |elems| &&
    forall j :: 0 <= j < |elems| && j < n ==> answers[j] == Given(chain, bn, elems, drops, j)
  }

  lemma FillMore(answers: seq<Answer>, chain: Chain, bn: nat, elems: seq<Elem>, drops: nat -> bool,
                 begin: nat, end: nat, n: int)
    requires Filled(answers, chain, bn, elems, drops, begin) && begin <= end <= |elems|
    requires n <= end || end == |elems|
    ensures Filled(Fill(answers, chain, bn, elems, drops, begin, end), chain, bn, elems, drops, n)
  {
    hide Given;
  }

  /** The outer loop: a list of requests is sent in chunks; a failed call is repeated, six failures in
      all give up. Whether it succeeds depends only on the first |chunks| + 5 calls. */
  method SendInChunks(chain: Chain, bn: nat, elems: seq<Elem>, batchSize: nat, fails: nat -> bool, drops: nat -> bool)
    returns (ok: bool, answers: seq<Answer>, sent: seq<(nat, nat)>, calls: nat)
    requires batchSize >= 1
    ensures ok <==> Failures(fails, |Plan(0, |elems|, batchSize)| + 5) <= 5
    ensures ok ==> sent == Plan(0, |elems|, batchSize) && calls == |sent| + Failures(fails, calls)
    ensures ok ==> Filled(answers, chain, bn, elems, drops, |elems|)
    ensures !ok ==> Failures(fails, calls) == 6
  {
    assert Failures(fails, 0) == 0;
    var total := |elems|;
    answers := seq(total, _ => Blank);
    assert Filled(answers, chain, bn, elems, drops, 0) && OnPlan([], 0, total, batchSize);
    hide Plan, Given, Failures, Fill, Filled, OnPlan;
    ghost var plan := Plan(0, total, batchSize);
    var rpcTries := 0;
    calls, sent := 0, [];
    var begin := 0;
    while begin < total
      invariant OnPlan(sent, begin, total, batchSize)
      invariant calls == |sent| + rpcTries && rpcTries == Failures(fails, calls) && rpcTries <= 5
      invariant |answers| == total && Filled(answers, chain, bn, elems, drops, if begin < total then begin else total)
    {
      var end := if begin + batchSize > total then total else begin + batchSize;
      NextOnPlan(sent, begin, total, batchSize);
      var through;
      through, calls, rpcTries := CallWithRetries(fails, calls, rpcTries);
      if !through {
        FailuresGrow(fails, calls, |plan| + 5);
        return false, [], sent, calls;
      }
      FillMore(answers, chain, bn, elems, drops, begin, end,
        if begin + batchSize < total then begin + batchSize else total);
      answers := Fill(answers, chain, bn, elems, drops, begin, end);
      sent := sent + [(begin, end)];
      begin := begin + batchSize;
    }
    EndOfPlan(sent, begin, total, batchSize);
    FailuresGrow(fails, calls, |plan| + 5);
    ok := true;
  }

  /** Three requests per account in one list. On success result i is account i's, wherever the chunk
      borders fall, but for zeros where single requests were dropped. */
  method LoadAccountBatchRPC(chain: Chain, bn: nat, accounts: seq<Address>, batchSize: nat,
                             fails: nat -> bool, drops: nat -> bool)
    returns (ok: bool, result: seq<Account>, sent: seq<(nat, nat)>, calls: nat)
    requires batchSize >= 1
    ensures ok <==> Failures(fails, |Plan(0, 3 * |accounts|, batchSize)| + 5) <= 5
    ensures ok ==> sent == Plan(0, 3 * |accounts|, batchSize) && calls == |sent| + Failures(fails, calls)
    ensures ok ==> |result| == |accounts|
    ensures ok ==> forall i :: 0 <= i < |accounts| ==> result[i] == Received(chain.account(bn, accounts[i]), drops, i)
    ensures !ok ==> result == [] && Failures(fails, calls) == 6
  {
    hide Plan, Given, Received, Failures, GatherAll;
    var elems := Requests(accounts);
    var answers;
    ok, answers, sent, calls := SendInChunks(chain, bn, elems, batchSize, fails, drops);
    result := if ok then GatherAll(answers, accounts, chain, bn, drops) else [];
  }

  function SlotReceived(chain: Chain, bn: nat, reqs: seq<(Address, Hash)>, drops: nat -> bool, i: nat): Hash
    requires i < |reqs|
  {
    if drops(i) then ZERO_HASH else chain.storage(bn, reqs[i].0, reqs[i].1)
  }

  /** It is the slot exactly if what was dropped was zero anyway. */
  lemma SlotReceivedExactly(chain: Chain, bn: nat, reqs: seq<(Address, Hash)>, drops: nat -> bool, i: nat)
    requires i < |reqs|
    ensures var value := chain.storage(bn, reqs[i].0, reqs[i].1);
            SlotReceived(chain, bn, reqs, drops, i) == value <==> (drops(i) ==> value == Zeros(32))
  {
  }

  /** Storage requests: no retry here, the first failed call is returned to the caller. */
  method LoadStateBatchRPC(chain: Chain, bn: nat, reqs: seq<(Address, Hash)>, batchSize: nat,
                           fails: nat -> bool, drops: nat -> bool)
    returns (ok: bool, values: seq<Hash>, calls: nat)
    requires batchSize >= 1
    ensures ok <==> Failures(fails, |Plan(0, |reqs|, batchSize)|) == 0
    ensures ok ==> calls == |Plan(0, |reqs|, batchSize)|
    ensures ok ==> |values| == |reqs|
    ensures ok ==> forall i :: 0 <= i < |reqs| ==> values[i] == SlotReceived(chain, bn, reqs, drops, i)
    ensures !ok ==> values == [] && Failures(fails, calls) == 1
  {
    hide SlotReceived;
    var total := |reqs|;
    ghost var plan := Plan(0, total, batchSize);
    values := seq(total, _ => ZERO_HASH);
    calls := 0;
    var begin := 0;
    while begin < total
      invariant calls + |Plan(begin, total, batchSize)| == |plan|
      invariant Failures(fails, calls) == 0
      invariant |values| == total
      invariant forall j :: 0 <= j < total && j < begin ==> values[j] == SlotReceived(chain, bn, reqs, drops, j)
    {
      var end := if begin + batchSize > total then total else begin + batchSize;
      calls := calls + 1;
      if fails(calls - 1) {
        FailuresGrow(fails, calls, |plan|);
        return false, [], calls;
      }
      for j := begin to end
        invariant |values| == total
        invariant forall i :: 0 <= i < j ==> values[i] == SlotReceived(chain, bn, reqs, drops, i)
      {
        values := values[j := SlotReceived(chain, bn, reqs, drops, j)];
      }
      begin := begin + batchSize;
    }
    ok := true;
  }
}
