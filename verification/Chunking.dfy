/**
 When no wallet repeats inside a run of `n` consecutive entries, the list, cursor and erase machinery amounts
 to cutting the shuffled list into chunks of `n`.
 */
module Chunking {
  import opened Common
  import opened Workload
  import opened Machine
  import opened Events
  import opened Invariants
  import opened Completion
  import opened Funds

  /** Where chunk number `a` begins. */
  function From(n: nat, a: nat): nat {
    a * n
  }

  function Chunk(order: seq<nat>, n: nat, a: nat): seq<nat> {
    if From(n, a) + n <= |order| then order[From(n, a)..From(n, a) + n] else []
  }

  ghost predicate ChunkAt(order: seq<nat>, n: nat, a: nat, names: seq<nat>) {
    From(n, a) + n <= |order| && names == Chunk(order, n, a)
  }

  /** The first `good` chunks exist, and none of them names a wallet twice. */
  ghost predicate CleanChunks(order: seq<nat>, n: nat, good: nat) {
    forall a: nat | a < good :: From(n, a) + n <= |order| && Distinct(Chunk(order, n, a))
  }

  lemma FromNext(n: nat, a: nat)
    ensures From(n, a + 1) == From(n, a) + n
  {
  }

  /** The state is `j` picks into chunk number `a`. */
  ghost predicate OnChunk(order: seq<nat>, n: nat, s: State, a: nat) {
    && |s.transfers| == a
    && s.cursor == 0 && From(n, a) + s.Picks() <= |order|
    && s.list == order[From(n, a) + s.Picks()..]
    && NamesOf(s.partial) == order[From(n, a)..From(n, a) + s.Picks()]
  }

  /** Up to chunk number `good`, transfers are chunks. */
  ghost predicate FollowsChunks(order: seq<nat>, n: nat, good: nat, s: State) {
    && (forall a: nat | a < |s.transfers| && a < good :: ChunkAt(order, n, a, NamesOf(s.transfers[a])))
    && (|s.transfers| < good || (|s.transfers| == good && s.AtBoundary()) ==> OnChunk(order, n, s, |s.transfers|))
  }

  /** Inside a clean chunk the entry at the cursor is always free. */
  lemma HeadIsFree(order: seq<nat>, n: nat, good: nat, s: State, a: nat)
    requires s.Placed() && CleanChunks(order, n, good) && a < good && OnChunk(order, n, s, a) && s.Picks() < n
    ensures s.list != [] && s.list[0] !in Picked(s.partial)
    ensures FirstFree(s.list, s.cursor, Picked(s.partial), 0) == Some(0)
  {
    hide From;
    var from, j := From(n, a), s.Picks();
    var chunk := Chunk(order, n, a);
    assert Distinct(chunk) && s.list[0] == chunk[j];
    forall x | x in Picked(s.partial) ensures x != chunk[j] {
      var i :| 0 <= i < |NamesOf(s.partial)| && NamesOf(s.partial)[i] == x;
      assert NamesOf(s.partial)[i] == chunk[i];
    }
    assert Circular(s.list, 0, 0) == s.list[0];
  }

  lemma SendNames(t: Transfer, e: Share)
    requires t.receivers == []
    ensures NamesOf(t.(senders := t.senders + [e])) == NamesOf(t) + [e.wallet]
  {
    NamesGrow(t, e);
    assert Names([]) == [];
  }

  lemma ChunkGrows(order: seq<nat>, n: nat, s: State, r: State, a: nat)
    requires OnChunk(order, n, s, a) && s.list != []
    requires r.transfers == s.transfers && r.cursor == 0 && r.Picks() == s.Picks() + 1
    requires r.list == Erase(s.list, 0) && NamesOf(r.partial) == NamesOf(s.partial) + [s.list[0]]
    ensures OnChunk(order, n, r, a)
  {
    hide From, NamesOf;
  }

  lemma PickFollows(p: Params, order: seq<nat>, good: nat, s: State, e: Event, r: State)
    requires s.Placed() && Happens(p, s, e, r) && (e.Send? || e.Receive?) && PartShape(p, s.partial)
    requires CleanChunks(order, p.Size(), good)
    requires |s.transfers| < good && OnChunk(order, p.Size(), s, |s.transfers|)
    ensures OnChunk(order, p.Size(), r, |r.transfers|)
  {
    hide CleanChunks, FirstFree, FirstWorth, NoneWorth, CreditAll, Payout, NoneFree, Params.Debit, Picked, SenderShape;
    hide From, NamesOf, Erase, OnChunk;
    HeadIsFree(order, p.Size(), good, s, |s.transfers|);
    if e.Send? {
      SendNames(s.partial, r.partial.senders[|s.partial.senders|]);
    } else {
      NamesGrow(s.partial, r.partial.receivers[|s.partial.receivers|]);
    }
    StartsAtZero(order, p.Size(), s, |s.transfers|);
    ChunkGrows(order, p.Size(), s, r, |s.transfers|);
  }

  lemma StartsAtZero(order: seq<nat>, n: nat, s: State, a: nat)
    requires OnChunk(order, n, s, a)
    ensures s.cursor == 0
  {
  }

  lemma FollowStep(p: Params, order: seq<nat>, good: nat, s: State, e: Event, r: State)
    requires s.Placed() && Happens(p, s, e, r) && PartShape(p, s.partial)
    requires CleanChunks(order, p.Size(), good)
    requires FollowsChunks(order, p.Size(), good, s)
    ensures FollowsChunks(order, p.Size(), good, r)
  {
    hide CleanChunks, FirstFree, FirstWorth, NoneWorth, CreditAll, Payout, NoneFree, Params.Debit, Picked, NextFree;
    hide SenderShape, Inputs, From, ChunkAt, Names, NamesOf;
    match e {
      case Send(_, _) =>
        if |s.transfers| < good {
          PickFollows(p, order, good, s, e, r);
        }
      case Receive(_) =>
        if |s.transfers| < good {
          PickFollows(p, order, good, s, e, r);
        }
      case Emit =>
        if |s.transfers| < good {
          EmitFollows(p, order, good, s, r);
        }
      case _ =>
    }
  }

  lemma EmitFollows(p: Params, order: seq<nat>, good: nat, s: State, r: State)
    requires CleanChunks(order, p.Size(), good) && |s.transfers| < good
    requires OnChunk(order, p.Size(), s, |s.transfers|) && s.Picks() == p.Size()
    requires r == s.(transfers := s.transfers + [s.partial], partial := NO_TRANSFER)
    ensures ChunkAt(order, p.Size(), |s.transfers|, NamesOf(s.partial))
    ensures OnChunk(order, p.Size(), r, |r.transfers|)
  {
    FromNext(p.Size(), |s.transfers|);
    assert NamesOf(NO_TRANSFER) == [];
  }

  lemma {:induction false} RunFollows(p: Params, order: seq<nat>, good: nat, k: nat)
    requires Shuffled(p, order) && CleanChunks(order, p.Size(), good)
    ensures FollowsChunks(order, p.Size(), good, At(p, order, k))
  {
    hide Step, Happens, PartShape, FullShape, FollowsChunks, CleanChunks;
    if k == 0 {
      InitFollows(p, order, good);
    } else {
      RunFollows(p, order, good, k - 1);
      Shapes(p, order, k - 1);
      var e := EventAt(p, order, k - 1);
      FollowStep(p, order, good, At(p, order, k - 1), e, At(p, order, k));
    }
  }

  lemma InitFollows(p: Params, order: seq<nat>, good: nat)
    ensures FollowsChunks(order, p.Size(), good, Init(p, order))
  {
    assert NamesOf(NO_TRANSFER) == [];
  }

  /** A run that does not fail uses up all clean chunks. */
  lemma AllChunksUsed(p: Params, order: seq<nat>, good: nat, k: nat)
    requires p.Valid() && Shuffled(p, order) && CleanChunks(order, p.Size(), good)
    requires At(p, order, k).status == Complete || At(p, order, k).status == Abandoned
    ensures good <= |At(p, order, k).transfers|
  {
    hide Step, PartShape, FullShape;
    var s, n := At(p, order, k), p.Size();
    RunFollows(p, order, good, k);
    StopReasons(p, order, k);
    if |s.transfers| < good {
      if s.Picks() < n {
        HeadIsFree(order, n, good, s, |s.transfers|);
      }
      RoomForChunk(order, n, good, s, |s.transfers|);
    }
  }

  lemma RoomForChunk(order: seq<nat>, n: nat, good: nat, s: State, a: nat)
    requires CleanChunks(order, n, good) && a < good && OnChunk(order, n, s, a)
    ensures n <= |s.list| + s.Picks()
  {
    hide From;
    assert Distinct(Chunk(order, n, a));
  }

  /** Transfer `t` names the entries of chunk number `a`, senders first, in this order. */
  ghost predicate CutFrom(p: Params, order: seq<nat>, a: nat, t: Transfer) {
    var from := From(p.Size(), a);
    && from + p.Size() <= |order|
    && |t.senders| == p.senders && |t.receivers| == p.receivers
    && (forall j: nat | j < p.senders :: t.senders[j].wallet == order[from + j])
    && (forall j: nat | j < p.receivers :: t.receivers[j].wallet == order[from + p.senders + j])
  }

  lemma ChunkIsCut(p: Params, order: seq<nat>, a: nat, t: Transfer)
    requires FullShape(p, t) && ChunkAt(order, p.Size(), a, NamesOf(t))
    ensures CutFrom(p, order, a, t)
  {
    hide From, PartShape;
    var from := From(p.Size(), a);
    forall j: nat | j < p.senders ensures t.senders[j].wallet == order[from + j] {
      assert NamesOf(t)[j] == t.senders[j].wallet;
    }
    forall j: nat | j < p.receivers ensures t.receivers[j].wallet == order[from + p.senders + j] {
      assert NamesOf(t)[p.senders + j] == t.receivers[j].wallet;
    }
  }

  /**
   The general refinement: whenever the aligned chunks of the shuffled list are free of repeats, transfer
   number `a` is cut from chunk number `a`.
   */
  lemma TransfersAreChunks(p: Params, order: seq<nat>, good: nat, k: nat, a: nat)
    requires p.Valid() && Shuffled(p, order) && CleanChunks(order, p.Size(), good)
    requires a < good && a < |At(p, order, k).transfers|
    ensures CutFrom(p, order, a, At(p, order, k).transfers[a])
  {
    hide Step, FullShape, CleanChunks, ChunkAt, CutFrom;
    RunFollows(p, order, good, k);
    Shapes(p, order, k);
    assert FullShape(p, At(p, order, k).transfers[a]);
    ChunkIsCut(p, order, a, At(p, order, k).transfers[a]);
  }

  lemma CountTwice(xs: seq<nat>, i: nat, j: nat)
    requires i < j < |xs| && xs[i] == xs[j]
    ensures multiset(xs)[xs[i]] >= 2
  {
    var a, b := xs[..j], xs[j..];
    assert xs == a + b;
    assert a[i] in multiset(a) && b[0] in multiset(b);
    assert multiset(xs) == multiset(a) + multiset(b);
  }

  lemma OnceEach(p: Params, order: seq<nat>)
    requires Shuffled(p, order) && p.rounds <= 1
    ensures Distinct(order)
  {
    forall i, j | 0 <= i < j < |order| ensures order[i] != order[j] {
      ShuffledCount(p, order, order[i]);
      if order[i] == order[j] {
        CountTwice(order, i, j);
      }
    }
  }

  lemma ChunksOfDistinct(order: seq<nat>, n: nat)
    requires n >= 1 && Distinct(order)
    ensures CleanChunks(order, n, |order| / n)
  {
    forall a: nat | a < |order| / n ensures From(n, a) + n <= |order| && Distinct(Chunk(order, n, a)) {
      MulMonotone(a + 1, |order| / n, n);
      FromNext(n, a);
    }
  }

  /**
   With one appearance per wallet, a run that does not fail is plain chunking of the shuffled list, from the
   first chunk to the last complete one.
   */
  lemma SingleRoundChunks(p: Params, order: seq<nat>)
    requires p.Valid() && Shuffled(p, order) && p.rounds == 1
    requires Final(p, order).status != OutOfFunds
    ensures var ts := Final(p, order).transfers;
            |ts| == |order| / p.Size() && forall a: nat | a < |ts| :: CutFrom(p, order, a, ts[a])
  {
    hide Step, CutFrom, CleanChunks;
    SingleRound(p, order);
    OnceEach(p, order);
    ChunksOfDistinct(order, p.Size());
    ShuffledCount(p, order, 0);
    var ts := Final(p, order).transfers;
    forall a: nat | a < |ts| ensures CutFrom(p, order, a, ts[a]) {
      TransfersAreChunks(p, order, |order| / p.Size(), 1 + 2 * |order|, a);
    }
  }

  // ----- A shuffle that runs out of money

  /** The wallets below `n`, `t` times over. */
  function Blocks(n: nat, t: nat): seq<nat> {
    if t == 0 then [] else Blocks(n, t - 1) + seq(n, (i: nat) => i)
  }

  /** The wallets from `n` up to `w`, each `t` times. */
  function Others(n: nat, w: nat, t: nat): seq<nat>
    requires n <= w
  {
    if w == n then [] else Others(n, w - 1, t) + Repeat(w - 1, t)
  }

  lemma {:induction false} BlocksSize(n: nat, t: nat)
    ensures |Blocks(n, t)| == From(n, t)
  {
    if t > 0 {
      BlocksSize(n, t - 1);
      FromNext(n, t - 1);
    }
  }

  lemma {:induction false} BlocksCount(n: nat, t: nat, x: nat)
    ensures multiset(Blocks(n, t))[x] == if x < n then t else 0
  {
    if t > 0 {
      BlocksCount(n, t - 1, x);
      var block := seq(n, (i: nat) => i);
      BlockCount(n, x);
      ConcatCount(Blocks(n, t - 1), block, x);
    }
  }

  lemma {:induction false} BlockCount(n: nat, x: nat)
    ensures multiset(seq(n, (i: nat) => i))[x] == if x < n then 1 else 0
  {
    if n == 0 {
      assert seq(n, (i: nat) => i) == [];
    } else {
      BlockCount(n - 1, x);
      assert seq(n, (i: nat) => i) == seq(n - 1, (i: nat) => i) + [n - 1];
    }
  }

  lemma {:induction false} OthersCount(n: nat, w: nat, t: nat, x: nat)
    requires n <= w
    ensures multiset(Others(n, w, t))[x] == if n <= x < w then t else 0
  {
    if n < w {
      OthersCount(n, w - 1, t, x);
      var last := Repeat(w - 1, t);
      RepeatCount(t, w - 1, x);
      ConcatCount(Others(n, w - 1, t), last, x);
    }
  }

  function GreedyOrder(p: Params): seq<nat>
    requires p.Size() <= p.wallets
  {
    Blocks(p.Size(), p.rounds) + Others(p.Size(), p.wallets, p.rounds)
  }

  lemma GreedyIsShuffle(p: Params)
    requires p.Size() <= p.wallets
    ensures Shuffled(p, GreedyOrder(p))
  {
    var order, list := GreedyOrder(p), WalletList(p, p.wallets);
    var mo: multiset<nat>, ml: multiset<nat> := multiset(order), multiset(list);
    forall x: nat ensures mo[x] == ml[x] {
      BlocksCount(p.Size(), p.rounds, x);
      OthersCount(p.Size(), p.wallets, p.rounds, x);
      WalletListCount(p, p.wallets, x);
      assert multiset(order) == multiset(Blocks(p.Size(), p.rounds)) + multiset(Others(p.Size(), p.wallets, p.rounds));
    }
  }

  lemma {:induction false} BlockAt(n: nat, t: nat, a: nat)
    requires a < t
    ensures From(n, a) + n <= |Blocks(n, t)|
    ensures Blocks(n, t)[From(n, a)..From(n, a) + n] == seq(n, (i: nat) => i)
  {
    hide From;
    BlocksSize(n, t);
    BlocksSize(n, t - 1);
    FromNext(n, t - 1);
    if a < t - 1 {
      BlockAt(n, t - 1, a);
    }
  }

  lemma GreedyChunks(p: Params)
    requires p.Size() <= p.wallets
    ensures CleanChunks(GreedyOrder(p), p.Size(), p.rounds)
    ensures forall a: nat | a < p.rounds && p.Size() > 0 ::
              From(p.Size(), a) < |GreedyOrder(p)| && GreedyOrder(p)[From(p.Size(), a)] == 0
  {
    hide Others, From;
    var order, n, t := GreedyOrder(p), p.Size(), p.rounds;
    forall a: nat | a < t
      ensures From(n, a) + n <= |order| && Distinct(Chunk(order, n, a))
      ensures n > 0 ==> From(n, a) < |order| && order[From(n, a)] == 0
    {
      BlockAt(n, t, a);
      var block := seq(n, (i: nat) => i);
      assert Chunk(order, n, a) == block;
      assert n > 0 ==> order[From(n, a)] == block[0];
    }
  }

  lemma {:induction false} SendsEvery(ts: seq<Transfer>, x: nat)
    requires forall t | t in ts :: t.senders != [] && t.senders[0].wallet == x
    ensures |ts| <= Sends(SendLog(ts), x)
  {
    if ts != [] {
      var n := |ts| - 1;
      SendsEvery(ts[..n], x);
      SendsAppend(SendLog(ts[..n]), ts[n].senders, x);
      assert ts[n] in ts;
      SendsFirst(ts[n].senders, x);
    }
  }

  lemma {:induction false} SendsFirst(es: seq<Share>, x: nat)
    requires es != [] && es[0].wallet == x
    ensures Sends(es, x) >= 1
  {
    if |es| > 1 {
      SendsFirst(es[..|es| - 1], x);
    }
  }

  lemma {:induction false} SendLogAppend(ts: seq<Transfer>, us: seq<Transfer>)
    ensures SendLog(ts + us) == SendLog(ts) + SendLog(us)
  {
    if us == [] {
      assert ts + us == ts;
    } else {
      var n := |us| - 1;
      SendLogAppend(ts, us[..n]);
      var all := ts + us;
      assert all[..|all| - 1] == ts + us[..n] && all[|all| - 1] == us[n];
      assert SendLog(all) == SendLog(ts + us[..n]) + us[n].senders;
      assert SendLog(us) == SendLog(us[..n]) + us[n].senders;
    }
  }

  /** Wallet 0 sends in every one of the first `rounds` transfers of a greedy run. */
  lemma GreedySends(p: Params, k: nat)
    requires p.Valid() && p.senders > 0 && p.Size() <= p.wallets
    requires var s := At(p, GreedyOrder(p), k); s.status == Complete || s.status == Abandoned
    ensures p.rounds <= SendsOf(At(p, GreedyOrder(p), k), 0)
  {
    hide Step, GreedyOrder, CleanChunks, SendLog, Sends;
    var order, t := GreedyOrder(p), p.rounds;
    var s := At(p, order, k);
    GreedyIsShuffle(p);
    GreedyChunks(p);
    AllChunksUsed(p, order, t, k);
    var ts, rest := s.transfers[..t], s.transfers[t..] + [s.partial];
    forall u | u in ts ensures u.senders != [] && u.senders[0].wallet == 0 {
      var a :| 0 <= a < |ts| && ts[a] == u;
      TransfersAreChunks(p, order, t, k, a);
      assert order[From(p.Size(), a) + 0] == 0;
    }
    SendsEvery(ts, 0);
    assert s.AllTransfers() == ts + rest;
    SendLogAppend(ts, rest);
    SendsAppend(SendLog(ts), SendLog(rest), 0);
  }

  /** The greedy shuffle fails if a wallet cannot afford to send every time. */
  lemma GreedyFails(p: Params)
    requires p.Valid() && p.senders > 0 && p.Size() <= p.wallets && p.rounds > 0
    requires !CanSend(p, p.rounds - 1)
    ensures Final(p, GreedyOrder(p)).status == OutOfFunds
  {
    hide Step, GreedyOrder, SendsOf, CanSend;
    var order := GreedyOrder(p);
    var k := 1 + 2 * |order|;
    GreedyIsShuffle(p);
    Terminates(p, order);
    if Final(p, order).status != OutOfFunds {
      GreedySends(p, k);
      OwnCoins(p, order, k);
      CanSendLess(p, p.rounds - 1, SendsOf(At(p, order, k), 0) - 1);
    }
  }

  /** If no wallet can afford a single send, every run that starts a transfer with a sender fails. */
  lemma BrokeFromTheStart(p: Params, order: seq<nat>)
    requires p.Valid() && Shuffled(p, order) && p.senders > 0 && p.Size() <= |order|
    requires !CanSend(p, 0)
    ensures Final(p, order).status == OutOfFunds
  {
    hide Step, CanSend, CleanChunks;
    var s := At(p, order, 0);
    assert NamesOf(NO_TRANSFER) == [];
    ScanFinds(s.list, s.cursor, Picked(s.partial));
    var i := FirstFree(s.list, s.cursor, Picked(s.partial), 0).value;
    NoSendsYet(p, order, s.list[i]);
    FailsExactly(p, order, 0, i);
    StoppedIsFinal(p, order, 1);
  }

  lemma NoSendsYet(p: Params, order: seq<nat>, x: nat)
    ensures SendsOf(Init(p, order), x) == 0
  {
    EmptyLog(p, order);
  }

  /** How often a wallet can have sent before it is picked once more. */
  function MostEarlierSends(p: Params): nat
    requires p.Valid() && p.Size() <= p.wallets * p.rounds
  {
    if p.Size() <= p.wallets then p.rounds - 1 else 0
  }

  lemma {:induction false} EarlierSends(p: Params, order: seq<nat>, k: nat, i: nat)
    requires p.Valid() && Shuffled(p, order) && NextFree(At(p, order, k), i)
    requires p.Size() <= p.wallets * p.rounds
    ensures SendsOf(At(p, order, k), At(p, order, k).list[i]) <= MostEarlierSends(p)
  {
    hide Step, FirstFree, SendLog, Sends;
    var s := At(p, order, k);
    var x := s.list[i];
    SendsBelowRounds(p, order, k, x);
    if p.wallets < p.Size() {
      TooFewWallets(p, order, k);
      SendsInNames(s.AllTransfers(), x);
      UsedOne(s.transfers, s.partial);
      assert x !in multiset(NamesOf(s.partial));
    }
  }

  lemma BigEnough(p: Params, s: State)
    requires Explained(p, s) && !(s.AtBoundary() && |s.list| < p.Size())
    ensures p.Size() <= |s.list| + s.Picks()
  {
  }

  lemma StartedBigEnough(p: Params, order: seq<nat>, k: nat)
    requires p.Valid() && Shuffled(p, order)
    requires var s := At(p, order, k); !(s.AtBoundary() && |s.list| < p.Size())
    ensures p.Size() <= p.wallets * p.rounds
  {
    hide Step, Explained;
    var s := At(p, order, k);
    StopReasons(p, order, k);
    Sizes(p, order, k);
    BigEnough(p, s);
    var used: nat := p.Size() * |s.transfers|;
  }

  /**
   The exact condition for "Not enough funds" to be possible: some shuffle fails if and only if transfers
   have senders, there are entries for a transfer, and a wallet cannot afford the last of the sends that
   it may be picked for.
   */
  lemma SomeShuffleFails(p: Params)
    requires p.Valid()
    ensures (exists order :: Shuffled(p, order) && Final(p, order).status == OutOfFunds) <==>
            p.senders > 0 && p.Size() <= p.wallets * p.rounds && !CanSend(p, MostEarlierSends(p))
  {
    hide Step, CanSend, GreedyOrder, Shuffled, Final;
    forall order | Shuffled(p, order) && Final(p, order).status == OutOfFunds
      ensures p.senders > 0 && p.Size() <= p.wallets * p.rounds && !CanSend(p, MostEarlierSends(p))
    {
      FailureNeeds(p, order);
    }
    if p.senders > 0 && p.Size() <= p.wallets * p.rounds && !CanSend(p, MostEarlierSends(p)) {
      var order := FailingOrder(p);
    }
  }

  lemma FailureNeeds(p: Params, order: seq<nat>)
    requires p.Valid() && Shuffled(p, order) && Final(p, order).status == OutOfFunds
    ensures p.senders > 0 && p.Size() <= p.wallets * p.rounds && !CanSend(p, MostEarlierSends(p))
  {
    hide Step, CanSend, SendsOf, MostEarlierSends;
    var k, i := FailedPick(p, order, 1 + 2 * |order|);
    StartedBigEnough(p, order, k);
    EarlierSends(p, order, k, i);
    var m := SendsOf(At(p, order, k), At(p, order, k).list[i]);
    if CanSend(p, MostEarlierSends(p)) {
      CanSendLess(p, m, MostEarlierSends(p));
    }
  }

  lemma FailingOrder(p: Params) returns (order: seq<nat>)
    requires p.Valid() && p.senders > 0 && p.Size() <= p.wallets * p.rounds && !CanSend(p, MostEarlierSends(p))
    ensures Shuffled(p, order) && Final(p, order).status == OutOfFunds
  {
    hide Step, CanSend, GreedyOrder, Final;
    if p.Size() <= p.wallets {
      order := GreedyOrder(p);
      GreedyIsShuffle(p);
      GreedyFails(p);
    } else {
      order := WalletList(p, p.wallets);
      WalletListSize(p, p.wallets);
      BrokeFromTheStart(p, order);
    }
  }
}
