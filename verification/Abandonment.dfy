/**
 Which parameters let a run abandon a transfer. The answer comes with the exact range of the number of transfers
 that a run can emit, and with a shuffle for every number in that range.
 */
module Abandonment {
  import opened Common
  import opened Workload
  import opened Ledgers
  import opened Machine
  import opened Invariants
  import opened Completion
  import opened Funds
  import opened Chunking
  import opened Contract

  /** Every wallet can afford every send that it may be picked for: the parameters for which no shuffle fails. */
  predicate FundsSuffice(p: Params)
    requires p.Valid()
  {
    p.senders == 0 || p.wallets * p.rounds < p.Size() || CanSend(p, MostEarlierSends(p))
  }

  lemma NoShuffleFails(p: Params, order: seq<nat>)
    requires p.Valid() && FundsSuffice(p) && Shuffled(p, order)
    ensures Final(p, order).status != OutOfFunds
  {
    hide Step, Final, CanSend, MostEarlierSends;
    if Final(p, order).status == OutOfFunds {
      FailureNeeds(p, order);
    }
  }

  /** Sufficient funds, from all sides: no shuffle fails if and only if they suffice. */
  lemma FundsSufficeExactly(p: Params)
    requires p.Valid()
    ensures FundsSuffice(p) <==> forall order :: Shuffled(p, order) ==> Final(p, order).status != OutOfFunds
    ensures p.rounds == 0 || CanSend(p, p.rounds - 1) ==> FundsSuffice(p)
  {
    hide Step, Final, CanSend, Shuffled;
    SomeShuffleFails(p);
    if p.rounds > 0 && CanSend(p, p.rounds - 1) {
      CanSendLess(p, 0, p.rounds - 1);
    }
  }

  // ----- Reading the unshuffled list in strides

  /** `n` entries of `xs`, `m` apart, from the one at `a` on. */
  function Stride(xs: seq<nat>, m: nat, a: nat, n: nat): (r: seq<nat>)
    requires a < m && From(m, n) <= |xs|
    ensures |r| == n
  {
    if n == 0 then []
    else
      FromNext(m, n - 1);
      Stride(xs, m, a, n - 1) + [xs[From(m, n - 1) + a]]
  }

  /** The first `a` strides, one after the other. */
  function Strides(xs: seq<nat>, m: nat, n: nat, a: nat): seq<nat>
    requires a <= m && From(m, n) <= |xs|
  {
    if a == 0 then [] else Strides(xs, m, n, a - 1) + Stride(xs, m, a - 1, n)
  }

  /** The first `a` entries of each of `n` blocks of `m` entries. */
  function Heads(xs: seq<nat>, m: nat, n: nat, a: nat): seq<nat>
    requires a <= m && From(m, n) <= |xs|
  {
    if n == 0 then []
    else
      FromNext(m, n - 1);
      Heads(xs, m, n - 1, a) + xs[From(m, n - 1)..From(m, n - 1) + a]
  }

  lemma {:induction false} StrideAt(xs: seq<nat>, m: nat, a: nat, n: nat, j: nat)
    requires a < m && From(m, n) <= |xs| && j < n
    ensures From(m, j) + a < |xs| && Stride(xs, m, a, n)[j] == xs[From(m, j) + a]
  {
    hide From;
    FromNext(m, n - 1);
    if j < n - 1 {
      StrideAt(xs, m, a, n - 1, j);
    }
  }

  lemma HeadsNext(xs: seq<nat>, m: nat, n: nat, a: nat)
    requires n > 0 && a <= m && From(m, n) <= |xs|
    ensures From(m, n - 1) + m == From(m, n)
    ensures Heads(xs, m, n, a) == Heads(xs, m, n - 1, a) + xs[From(m, n - 1)..From(m, n - 1) + a]
  {
    FromNext(m, n - 1);
  }

  lemma StrideNext(xs: seq<nat>, m: nat, a: nat, n: nat)
    requires n > 0 && a < m && From(m, n) <= |xs|
    ensures From(m, n - 1) + m == From(m, n)
    ensures Stride(xs, m, a, n) == Stride(xs, m, a, n - 1) + [xs[From(m, n - 1) + a]]
  {
    FromNext(m, n - 1);
  }

  lemma OneMore(h: seq<nat>, g: seq<nat>, s: seq<nat>, b: seq<nat>, x: nat)
    requires multiset(h) == multiset(g) + multiset(s)
    ensures multiset(h + (b + [x])) == multiset(g + b) + multiset(s + [x])
  {
    assert multiset(h + (b + [x])) == multiset(h) + multiset(b) + multiset{x};
  }

  lemma {:induction false} NextHeads(xs: seq<nat>, m: nat, n: nat, a: nat)
    requires a < m && From(m, n) <= |xs|
    ensures multiset(Heads(xs, m, n, a + 1)) == multiset(Heads(xs, m, n, a)) + multiset(Stride(xs, m, a, n))
  {
    hide From, Heads, Stride;
    if n == 0 {
      NoBlocks(xs, m, a);
    } else {
      FromNext(m, n - 1);
      NextHeads(xs, m, n - 1, a);
      NextBlock(xs, m, n, a);
    }
  }

  lemma NoBlocks(xs: seq<nat>, m: nat, a: nat)
    requires a < m && From(m, 0) <= |xs|
    ensures Heads(xs, m, 0, a + 1) == Heads(xs, m, 0, a) == Stride(xs, m, a, 0) == []
  {
  }

  lemma NextBlock(xs: seq<nat>, m: nat, n: nat, a: nat)
    requires n > 0 && a < m && From(m, n) <= |xs| && From(m, n - 1) <= |xs|
    requires multiset(Heads(xs, m, n - 1, a + 1)) == multiset(Heads(xs, m, n - 1, a)) + multiset(Stride(xs, m, a, n - 1))
    ensures multiset(Heads(xs, m, n, a + 1)) == multiset(Heads(xs, m, n, a)) + multiset(Stride(xs, m, a, n))
  {
    hide From, Heads, Stride;
    HeadsNext(xs, m, n, a + 1);
    HeadsNext(xs, m, n, a);
    StrideNext(xs, m, a, n);
    var from := From(m, n - 1);
    var b := xs[from..from + a];
    assert xs[from..from + (a + 1)] == b + [xs[from + a]];
    OneMore(Heads(xs, m, n - 1, a + 1), Heads(xs, m, n - 1, a), Stride(xs, m, a, n - 1), b, xs[from + a]);
  }

  lemma {:induction false} StridesAreHeads(xs: seq<nat>, m: nat, n: nat, a: nat)
    requires a <= m && From(m, n) <= |xs|
    ensures multiset(Strides(xs, m, n, a)) == multiset(Heads(xs, m, n, a))
  {
    hide From, Stride, Heads;
    if a == 0 {
      NoHeads(xs, m, n);
    } else {
      StridesAreHeads(xs, m, n, a - 1);
      NextHeads(xs, m, n, a - 1);
    }
  }

  lemma {:induction false} NoHeads(xs: seq<nat>, m: nat, n: nat)
    requires From(m, n) <= |xs|
    ensures Heads(xs, m, n, 0) == []
  {
    hide From;
    if n > 0 {
      FromNext(m, n - 1);
      NoHeads(xs, m, n - 1);
    }
  }

  lemma {:induction false} FullHeads(xs: seq<nat>, m: nat, n: nat)
    requires From(m, n) <= |xs|
    ensures Heads(xs, m, n, m) == xs[..From(m, n)]
  {
    if n > 0 {
      FromNext(m, n - 1);
      FullHeads(xs, m, n - 1);
    }
  }

  lemma {:induction false} StridesSize(xs: seq<nat>, m: nat, n: nat, a: nat)
    requires a <= m && From(m, n) <= |xs|
    ensures |Strides(xs, m, n, a)| == From(n, a)
  {
    hide Stride;
    if a > 0 {
      StridesSize(xs, m, n, a - 1);
      FromNext(n, a - 1);
    }
  }

  lemma {:induction false} StridesAt(xs: seq<nat>, m: nat, n: nat, b: nat, a: nat)
    requires a < b <= m && From(m, n) <= |xs|
    ensures From(n, a) + n <= |Strides(xs, m, n, b)|
    ensures Strides(xs, m, n, b)[From(n, a)..From(n, a) + n] == Stride(xs, m, a, n)
  {
    hide From, Stride;
    StridesSize(xs, m, n, b);
    StridesSize(xs, m, n, b - 1);
    FromNext(n, b - 1);
    if a < b - 1 {
      StridesAt(xs, m, n, b - 1, a);
    }
  }

  // ----- The strided shuffle

  /** `m` chunks, read in strides off the list of wallets, and then the rest of that list. */
  function StridedOrder(p: Params, m: nat): seq<nat>
    requires From(m, p.Size()) <= |WalletList(p, p.wallets)|
  {
    var list := WalletList(p, p.wallets);
    Strides(list, m, p.Size(), m) + list[From(m, p.Size())..]
  }

  lemma StridedIsShuffle(p: Params, m: nat)
    requires From(m, p.Size()) <= |WalletList(p, p.wallets)|
    ensures Shuffled(p, StridedOrder(p, m))
  {
    hide From, Strides, Heads, WalletList;
    var list, from := WalletList(p, p.wallets), From(m, p.Size());
    StridesAreHeads(list, m, p.Size(), m);
    FullHeads(list, m, p.Size());
    assert list == list[..from] + list[from..];
  }

  /** Each wallet fills `rounds` consecutive places of the list of wallets. */
  lemma {:induction false} WalletAt(p: Params, n: nat, q: nat)
    requires q < |WalletList(p, n)|
    ensures var x := WalletList(p, n)[q]; x < n && x * p.rounds <= q < x * p.rounds + p.rounds
  {
    WalletListSize(p, n - 1);
    if q < |WalletList(p, n - 1)| {
      WalletAt(p, n - 1, q);
    }
  }

  /** Places that are `rounds` or more apart belong to different wallets. */
  lemma FarApart(p: Params, i: nat, j: nat)
    requires i + p.rounds <= j < |WalletList(p, p.wallets)|
    ensures WalletList(p, p.wallets)[i] != WalletList(p, p.wallets)[j]
  {
    hide WalletList;
    WalletAt(p, p.wallets, i);
    WalletAt(p, p.wallets, j);
  }

  lemma StrideDistinct(p: Params, m: nat, a: nat, n: nat)
    requires p.rounds <= m && a < m && From(m, n) <= |WalletList(p, p.wallets)|
    ensures Distinct(Stride(WalletList(p, p.wallets), m, a, n))
  {
    hide WalletList, From, Stride;
    var list := WalletList(p, p.wallets);
    forall i, j | 0 <= i < j < n ensures Stride(list, m, a, n)[i] != Stride(list, m, a, n)[j] {
      StrideAt(list, m, a, n, i);
      StrideAt(list, m, a, n, j);
      FromApart(m, i, j);
      FarApart(p, From(m, i) + a, From(m, j) + a);
    }
  }

  lemma FromApart(m: nat, i: nat, j: nat)
    requires i < j
    ensures From(m, i) + m <= From(m, j)
  {
    NextMultiple(i, j, m);
  }

  lemma StridedChunks(p: Params, m: nat)
    requires p.rounds <= m && From(m, p.Size()) <= |WalletList(p, p.wallets)|
    ensures CleanChunks(StridedOrder(p, m), p.Size(), m)
  {
    hide WalletList, From, Stride, Strides;
    var list, n := WalletList(p, p.wallets), p.Size();
    var order := StridedOrder(p, m);
    forall a: nat | a < m ensures From(n, a) + n <= |order| && Distinct(Chunk(order, n, a)) {
      StridesAt(list, m, n, m, a);
      StrideDistinct(p, m, a, n);
      assert Chunk(order, n, a) == Stride(list, m, a, n);
    }
  }

  // ----- What is left behind the chunks

  lemma {:induction false} UsedByChunks(order: seq<nat>, n: nat, ts: seq<Transfer>, m: nat)
    requires m <= |ts| && forall a: nat | a < m :: ChunkAt(order, n, a, NamesOf(ts[a]))
    ensures From(n, m) <= |order| && Used(ts[..m]) == multiset(order[..From(n, m)])
  {
    hide From, NamesOf, Used;
    if m == 0 {
      NothingBefore(n, ts);
    } else {
      UsedByChunks(order, n, ts, m - 1);
      FromNext(n, m - 1);
      UsedOne(ts[..m - 1], ts[m - 1]);
      var from := From(n, m - 1);
      assert ts[..m] == ts[..m - 1] + [ts[m - 1]];
      assert ChunkAt(order, n, m - 1, NamesOf(ts[m - 1]));
      assert order[..from + n] == order[..from] + order[from..from + n];
    }
  }

  lemma NothingBefore(n: nat, ts: seq<Transfer>)
    ensures From(n, 0) == 0 && Used(ts[..0]) == multiset{}
  {
  }

  lemma {:induction false} UsedMore(ts: seq<Transfer>, us: seq<Transfer>)
    ensures Used(ts) <= Used(ts + us)
  {
    hide NamesOf, Used;
    if us == [] {
      assert ts + us == ts;
    } else {
      var n := |us| - 1;
      UsedMore(ts, us[..n]);
      UsedOne(ts + us[..n], us[n]);
      assert ts + us == ts + us[..n] + [us[n]];
    }
  }

  /** The transfer after `good` chunks is made of what comes behind them. */
  lemma {:induction false} BehindChunks(p: Params, order: seq<nat>, good: nat, k: nat, x: nat)
    requires Shuffled(p, order) && CleanChunks(order, p.Size(), good) && From(p.Size(), good) <= |order|
    requires good < |At(p, order, k).transfers| && x in Picked(At(p, order, k).transfers[good])
    ensures x in order[From(p.Size(), good)..]
  {
    hide Step, From, NamesOf, Used, CleanChunks, OnChunk, ChunkAt;
    var s, from := At(p, order, k), From(p.Size(), good);
    RunFollows(p, order, good, k);
    UsedByChunks(order, p.Size(), s.transfers, good);
    Accounting(p, order, k);
    UsedOne(s.transfers[..good], s.transfers[good]);
    var ts, rest := s.transfers[..good + 1], s.transfers[good + 1..] + [s.partial];
    assert ts == s.transfers[..good] + [s.transfers[good]];
    assert s.AllTransfers() == ts + rest;
    UsedMore(ts, rest);
    assert order == order[..from] + order[from..];
    assert x in multiset(NamesOf(s.transfers[good]));
    assert multiset(order) == multiset(order[..from]) + multiset(order[from..]);
    InRest(multiset(order[..from]), multiset(NamesOf(s.transfers[good])), multiset(order[from..]), x);
  }

  lemma InRest(a: multiset<nat>, b: multiset<nat>, c: multiset<nat>, x: nat)
    requires a + b <= a + c && x in b
    ensures x in c
  {
    assert (a + b)[x] <= (a + c)[x];
  }

  /** Behind `m >= spread` chunks there are fewer than `n` wallets. */
  lemma FewBehind(p: Params, m: nat, x: nat)
    requires p.Valid() && p.Size() <= p.wallets && FewestTransfers(p) <= m
    requires From(m, p.Size()) <= |WalletList(p, p.wallets)|
    requires x in WalletList(p, p.wallets)[From(m, p.Size())..]
    ensures p.wallets - p.Size() < x < p.wallets
  {
    hide WalletList;
    var list, n := WalletList(p, p.wallets), p.Size();
    var i :| 0 <= i < |list[From(m, n)..]| && list[From(m, n)..][i] == x;
    WalletAt(p, p.wallets, From(m, n) + i);
    SpreadReached(p, m);
    if x <= p.wallets - n {
      MulMonotone(x + 1, p.wallets - n + 1, p.rounds);
      Successor(x, p.rounds);
    }
  }

  lemma SpreadReached(p: Params, m: nat)
    requires p.Valid() && p.Size() <= p.wallets && FewestTransfers(p) <= m
    ensures (p.wallets - p.Size() + 1) * p.rounds <= From(m, p.Size())
  {
    var a, n := (p.wallets - p.Size() + 1) * p.rounds, p.Size();
    CeilReached(a, n);
    MulMonotone(CeilDiv(a, n), m, n);
  }

  lemma CeilReached(a: nat, n: nat)
    requires n > 0
    ensures a <= CeilDiv(a, n) * n
  {
  }

  lemma StridedRoom(p: Params, m: nat)
    requires p.Valid() && m <= MostTransfers(p)
    ensures From(m, p.Size()) == From(p.Size(), m) <= |WalletList(p, p.wallets)|
  {
    hide WalletList;
    WalletListSize(p, p.wallets);
    MulMonotone(m, MostTransfers(p), p.Size());
    MostFit(p);
  }

  lemma MostFit(p: Params)
    requires p.Valid()
    ensures MostTransfers(p) * p.Size() <= p.wallets * p.rounds
  {
  }

  /** The strided shuffle emits exactly its `m` chunks. */
  lemma StridedStops(p: Params, m: nat)
    requires p.Valid() && FundsSuffice(p) && p.Size() <= p.wallets
    requires FewestTransfers(p) <= m <= MostTransfers(p)
    ensures From(m, p.Size()) <= |WalletList(p, p.wallets)|
    ensures Shuffled(p, StridedOrder(p, m)) && Final(p, StridedOrder(p, m)).status != OutOfFunds
    ensures |Final(p, StridedOrder(p, m)).transfers| == m
  {
    hide Step, Final, WalletList, StridedOrder, FundsSuffice, FewestTransfers, MostTransfers, From, CleanChunks, FullShape;
    StridedRoom(p, m);
    AtLeastRounds(p, m);
    var order := StridedOrder(p, m);
    var k := 1 + 2 * |order|;
    StridedIsShuffle(p, m);
    StridedChunks(p, m);
    NoShuffleFails(p, order);
    FinalAt(p, order);
    Terminates(p, order);
    AllChunksUsed(p, order, m, k);
    if m < |At(p, order, k).transfers| {
      Shapes(p, order, k);
      var t := At(p, order, k).transfers[m];
      StridedTail(p, m);
      forall x | x in Picked(t) ensures x in Below(p.wallets) - Below(p.wallets - p.Size() + 1) {
        BehindChunks(p, order, m, k, x);
        FewBehind(p, m, x);
      }
      assert FullShape(p, t);
      TooManyNames(p, t);
    }
  }

  lemma AtLeastRounds(p: Params, m: nat)
    requires p.Valid() && p.Size() <= p.wallets && FewestTransfers(p) <= m
    ensures p.rounds <= m
  {
    hide CeilDiv;
  }

  lemma StridedTail(p: Params, m: nat)
    requires From(m, p.Size()) == From(p.Size(), m) <= |WalletList(p, p.wallets)|
    ensures From(p.Size(), m) <= |StridedOrder(p, m)|
    ensures StridedOrder(p, m)[From(p.Size(), m)..] == WalletList(p, p.wallets)[From(m, p.Size())..]
  {
    hide From, WalletList, Strides;
    StridesSize(WalletList(p, p.wallets), m, p.Size(), m);
  }

  lemma TooManyNames(p: Params, t: Transfer)
    requires FullShape(p, t) && p.Size() <= p.wallets && p.Size() > 0
    ensures !(Picked(t) <= Below(p.wallets) - Below(p.wallets - p.Size() + 1))
  {
    hide SenderShape, Payout, Inputs, NamesOf;
    var low, all := Below(p.wallets - p.Size() + 1), Below(p.wallets);
    PickedCount(t);
    assert low <= all && |all - low| == |all| - |low|;
    if Picked(t) <= all - low {
      Subset(Picked(t), all - low);
    }
  }

  // ----- The theorems

  /** The number of transfers of some run that does not fail. */
  ghost predicate Attainable(p: Params, m: nat) {
    exists order :: Shuffled(p, order) && Final(p, order).status != OutOfFunds && |Final(p, order).transfers| == m
  }

  lemma UnshuffledIsShuffle(p: Params)
    ensures Shuffled(p, WalletList(p, p.wallets))
  {
  }

  /**
   The exact range of the number of transfers: a run can emit `m` transfers if and only if `m` is between the
   fewest and the most, or is zero when there are not enough wallets for a transfer.
   */
  lemma AttainableExactly(p: Params, m: nat)
    requires p.Valid() && FundsSuffice(p)
    ensures Attainable(p, m) <==>
            if p.wallets < p.Size() then m == 0 else FewestTransfers(p) <= m <= MostTransfers(p)
  {
    hide Step, Final, Shuffled, WalletList, FundsSuffice, FewestTransfers, MostTransfers, StridedOrder;
    forall order | Shuffled(p, order) && Final(p, order).status != OutOfFunds
      ensures FewestTransfers(p) <= |Final(p, order).transfers| <= MostTransfers(p)
      ensures p.wallets < p.Size() ==> Final(p, order).transfers == []
    {
      CompletionBound(p, order);
    }
    if p.wallets < p.Size() {
      var order := WalletList(p, p.wallets);
      UnshuffledIsShuffle(p);
      NoShuffleFails(p, order);
      assert |Final(p, order).transfers| == 0;
    } else if FewestTransfers(p) <= m <= MostTransfers(p) {
      StridedStops(p, m);
    }
  }

  /** A run that does not fail abandons a transfer only if the parameters leave a choice how many to emit. */
  lemma AbandonmentNeeds(p: Params, order: seq<nat>)
    requires p.Valid() && Shuffled(p, order) && Final(p, order).status == Abandoned
    ensures FewestTransfers(p) < MostTransfers(p)
  {
    hide Step, Final, FewestTransfers, MostTransfers;
    CompletionBound(p, order);
    CompleteMeansMost(p, order);
  }

  lemma AbandoningOrder(p: Params) returns (order: seq<nat>)
    requires p.Valid() && FundsSuffice(p) && FewestTransfers(p) < MostTransfers(p)
    ensures Shuffled(p, order) && Final(p, order).status == Abandoned
  {
    hide Step, Final, FewestTransfers, MostTransfers, FundsSuffice, WalletList, Shuffled, StridedOrder;
    if p.wallets < p.Size() {
      NoneWithout(p);
    }
    AttainableExactly(p, FewestTransfers(p));
    order :| Shuffled(p, order) && Final(p, order).status != OutOfFunds
             && |Final(p, order).transfers| == FewestTransfers(p);
    CompleteMeansMost(p, order);
    Terminates(p, order);
  }

  lemma NoneWithout(p: Params)
    requires p.Valid() && p.wallets < p.Size()
    ensures FewestTransfers(p) == 0
  {
  }

  /**
   Exactly when a transfer can be abandoned: for parameters whose funds suffice, some shuffle abandons a
   transfer if and only if the fewest transfers are not also the most. These are the parameters for which the
   scan's test for having come full circle decides anything.
   */
  lemma SomeShuffleAbandons(p: Params)
    requires p.Valid() && FundsSuffice(p)
    ensures (exists order :: Shuffled(p, order) && Final(p, order).status == Abandoned) <==>
            FewestTransfers(p) < MostTransfers(p)
  {
    hide Step, Final, FewestTransfers, MostTransfers, FundsSuffice, Shuffled;
    forall order | Shuffled(p, order) && Final(p, order).status == Abandoned
      ensures FewestTransfers(p) < MostTransfers(p)
    {
      AbandonmentNeeds(p, order);
    }
    if FewestTransfers(p) < MostTransfers(p) {
      var order := AbandoningOrder(p);
    }
  }

  /** A run publishes the values that executing its transfers leads to. */
  ghost predicate KeepsContract(p: Params, order: seq<nat>) {
    var s := Final(p, order);
    Execute(Mint(p), s.transfers).Some? && Agree(Execute(Mint(p), s.transfers).value, s.ledger)
  }

  /**
   A run that does not fail keeps the contract if transfers have no senders or no price, or if the parameters
   leave no choice how many transfers are emitted.
   */
  lemma ContractKept(p: Params, order: seq<nat>)
    requires p.Valid() && Shuffled(p, order) && Final(p, order).status != OutOfFunds
    requires p.senders == 0 || p.Debit() == 0 || FewestTransfers(p) == MostTransfers(p)
    ensures KeepsContract(p, order)
  {
    hide Step, Final, FewestTransfers, MostTransfers, Execute, Agree, Mint, Params.Debit;
    ContractHoldsExactly(p, order);
    Terminates(p, order);
    if Final(p, order).status == Abandoned {
      if FewestTransfers(p) == MostTransfers(p) {
        AbandonmentNeeds(p, order);
      }
    }
  }

  /**
   The parameters for which the published contract can be relied on: when the funds suffice, every shuffle keeps
   it if and only if transfers have no senders or no price, or the fewest transfers are also the most.
   */
  lemma EveryShuffleKeepsContract(p: Params)
    requires p.Valid() && FundsSuffice(p)
    ensures (forall order :: Shuffled(p, order) ==> KeepsContract(p, order)) <==>
            p.senders == 0 || p.Debit() == 0 || FewestTransfers(p) == MostTransfers(p)
  {
    hide Step, Final, FewestTransfers, MostTransfers, FundsSuffice, Shuffled, Params.Debit, KeepsContract;
    if p.senders == 0 || p.Debit() == 0 || FewestTransfers(p) == MostTransfers(p) {
      forall order | Shuffled(p, order) ensures KeepsContract(p, order) {
        NoShuffleFails(p, order);
        ContractKept(p, order);
      }
    } else {
      FewestAtMost(p);
      var order := AbandoningOrder(p);
      AbandonedBreaks(p, order);
    }
  }

  lemma FewestAtMost(p: Params)
    requires p.Valid() && FundsSuffice(p)
    ensures FewestTransfers(p) <= MostTransfers(p)
  {
    hide Step, Final, FewestTransfers, MostTransfers, FundsSuffice, WalletList;
    var order := WalletList(p, p.wallets);
    UnshuffledIsShuffle(p);
    NoShuffleFails(p, order);
    CompletionBound(p, order);
  }

  lemma AbandonedBreaks(p: Params, order: seq<nat>)
    requires p.Valid() && Shuffled(p, order) && Final(p, order).status == Abandoned
    requires p.senders > 0 && p.Debit() > 0
    ensures !KeepsContract(p, order)
  {
    hide Step, Final, Execute, Agree, Mint, Params.Debit;
    ContractHoldsExactly(p, order);
  }
}
