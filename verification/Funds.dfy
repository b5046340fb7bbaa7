/** Which coin pays for which transfer, and when the money runs out. */
module Funds {
  import opened Common
  import opened Workload
  import opened Ledgers
  import opened Machine
  import opened Events
  import opened Invariants
  import opened Accounts
  import opened Schedules

  /** How many transfers one coin pays for. */
  function PerCoin(p: Params): nat {
    if p.Debit() == 0 then 0 else p.initial / p.Debit()
  }

  /** Whether a wallet that has sent `k` times already can send again. */
  predicate CanSend(p: Params, k: nat) {
    if p.Debit() == 0 then p.coins > 0 else k < p.coins * PerCoin(p)
  }

  /** The position of the coin that pays for send number `k` of a wallet. */
  function CoinOfSend(p: Params, k: nat): nat {
    if PerCoin(p) == 0 then 0 else k / PerCoin(p)
  }

  /** All sends, in the order in which they are made. */
  function SendLog(ts: seq<Transfer>): seq<Share> {
    if ts == [] then [] else SendLog(ts[..|ts| - 1]) + ts[|ts| - 1].senders
  }

  function Sends(es: seq<Share>, x: nat): nat {
    if es == [] then 0 else Sends(es[..|es| - 1], x) + if es[|es| - 1].wallet == x then 1 else 0
  }

  function SendsOf(s: State, x: nat): nat {
    Sends(SendLog(s.AllTransfers()), x)
  }

  /** How many of `k` sends coin number `j` has paid for, when coins are used up one after the other. */
  function PaidBy(m: nat, k: nat, j: nat): nat {
    if k <= j * m then 0 else if (j + 1) * m <= k then m else k - j * m
  }

  // ----- The log grows with every send

  lemma LogGrows(p: Params, s: State, e: Event, r: State)
    requires s.Placed() && Happens(p, s, e, r)
    ensures SendLog(r.AllTransfers()) == SendLog(s.AllTransfers()) +
            if e.Send? then [Share(s.list[e.i], [Coin(s.list[e.i] * p.coins + e.j, p.Debit())])] else []
  {
    hide FirstFree, FirstWorth, NoneWorth, CreditAll, Payout, NoneFree, Params.Debit;
    assert s.AllTransfers()[..|s.transfers|] == s.transfers;
    assert r.AllTransfers()[..|r.transfers|] == r.transfers;
    if e.Emit? {
      assert r.transfers[..|s.transfers|] == s.transfers;
    }
  }

  lemma SendsOne(es: seq<Share>, e: Share, x: nat)
    ensures Sends(es + [e], x) == Sends(es, x) + if e.wallet == x then 1 else 0
  {
    assert (es + [e])[..|es|] == es;
  }

  // ----- Arithmetic of first fit

  /** A coin is worth the price as long as it has paid less often than it can. */
  lemma Worth(p: Params, u: nat)
    requires p.Debit() > 0 && u <= PerCoin(p)
    ensures p.Debit() * u <= p.initial
    ensures p.Debit() <= p.initial - p.Debit() * u <==> u < PerCoin(p)
  {
    hide Params.Debit;
    var d, m := p.Debit(), PerCoin(p);
    assert d * m <= p.initial < d * m + d;
    MulMonotone(u, m, d);
    if u < m {
      MulMonotone(u + 1, m, d);
    }
  }

  lemma PaidAtMost(m: nat, k: nat, j: nat)
    ensures PaidBy(m, k, j) <= m
    ensures PaidBy(m, k, j) == m <==> (j + 1) * m <= k || m == 0
  {
    assert (j + 1) * m == j * m + m;
  }

  /** Between `j * m` and `(j + 1) * m`, dividing by `m` gives `j`. */
  lemma Quotient(m: nat, k: nat, j: nat)
    requires j * m <= k < (j + 1) * m
    ensures m > 0 && k / m == j
  {
    assert (j + 1) * m == j * m + m;
    var q := k / m;
    assert q * m <= k < q * m + m;
    if q < j {
      MulMonotone(q + 1, j, m);
    } else if j < q {
      MulMonotone(j + 1, q, m);
    }
  }

  /** One more send is paid by the coin whose turn it is, and by no other. */
  lemma PaidNext(m: nat, k: nat, j: nat, i: nat)
    requires j * m <= k < (j + 1) * m
    ensures PaidBy(m, k + 1, i) == PaidBy(m, k, i) + if i == j then 1 else 0
  {
    assert (j + 1) * m == j * m + m && (i + 1) * m == i * m + m;
    if i < j {
      MulMonotone(i + 1, j, m);
    } else if j < i {
      MulMonotone(j + 1, i, m);
    }
  }

  // ----- The ledger of own coins

  /** What is left of coin number `j` of wallet `x` after `k` sends. */
  function Rest(p: Params, k: nat, j: nat): int {
    p.initial - p.Debit() * PaidBy(PerCoin(p), k, j)
  }

  ghost predicate Spending(p: Params, s: State) {
    forall x: nat, j: nat | x < p.wallets && j < p.coins ::
      Held(s.ledger, (x, p.Minted(x)[j].id)) == Rest(p, SendsOf(s, x), j)
  }

  ghost predicate Affordable(p: Params, s: State) {
    forall x: nat | SendsOf(s, x) > 0 :: CanSend(p, SendsOf(s, x) - 1)
  }

  lemma RestWorth(p: Params, k: nat, j: nat)
    requires p.Debit() > 0
    ensures 0 <= Rest(p, k, j)
    ensures p.Debit() <= Rest(p, k, j) <==> k < (j + 1) * PerCoin(p)
  {
    hide Params.Debit, PerCoin;
    PaidAtMost(PerCoin(p), k, j);
    Worth(p, PaidBy(PerCoin(p), k, j));
    assert (j + 1) * PerCoin(p) == j * PerCoin(p) + PerCoin(p);
  }

  /** First fit finds the coin whose turn it is. */
  lemma FirstFitTurn(p: Params, s: State, x: nat, j: nat)
    requires Spending(p, s) && x < p.wallets && FirstWorth(p, s.ledger, x, j)
    ensures CanSend(p, SendsOf(s, x)) && CoinOfSend(p, SendsOf(s, x)) == j
    ensures p.Debit() > 0 ==> j * PerCoin(p) <= SendsOf(s, x) < (j + 1) * PerCoin(p)
  {
    hide Params.Debit, Rest, SendsOf;
    var k, m := SendsOf(s, x), PerCoin(p);
    assert p.Minted(x)[j].id == x * p.coins + j;
    if p.Debit() > 0 {
      RestWorth(p, k, j);
      if j > 0 {
        assert Held(s.ledger, (x, p.Minted(x)[j - 1].id)) < p.Debit();
        RestWorth(p, k, j - 1);
      }
      Quotient(m, k, j);
      MulMonotone(j + 1, p.coins, m);
    } else if j > 0 {
      FreeTurn(p, s, x, j);
    }
  }

  lemma FreeTurn(p: Params, s: State, x: nat, j: nat)
    requires p.Debit() == 0 && 0 < j < p.coins
    ensures !FirstWorth(p, s.ledger, x, j)
  {
    hide Params.Debit;
    assert !(Held(s.ledger, (x, p.Minted(x)[0].id)) < p.Debit());
  }

  /** When no coin is worth the price, the wallet has sent as often as it can. */
  lemma NoneLeft(p: Params, s: State, x: nat)
    requires Spending(p, s) && x < p.wallets && NoneWorth(p, s.ledger, x)
    ensures !CanSend(p, SendsOf(s, x))
  {
    hide Params.Debit, PerCoin, Rest, SendsOf;
    if p.coins > 0 {
      assert Held(s.ledger, (x, p.Minted(x)[p.coins - 1].id)) < p.Debit();
      RestWorth(p, SendsOf(s, x), p.coins - 1);
    }
  }

  lemma RestNext(p: Params, k: nat, j: nat, i: nat)
    requires p.Debit() > 0 ==> j * PerCoin(p) <= k < (j + 1) * PerCoin(p)
    ensures Rest(p, k + 1, i) == Rest(p, k, i) - if i == j then p.Debit() else 0
  {
    hide Params.Debit, PerCoin, PaidBy;
    if p.Debit() > 0 {
      PaidNext(PerCoin(p), k, j, i);
      var u, d := PaidBy(PerCoin(p), k, i), p.Debit();
      assert d * (u + 1) == d * u + d;
    }
  }

  lemma SendSpends(p: Params, s: State, e: Event, r: State)
    requires p.Valid() && s.Placed() && e.Send? && Happens(p, s, e, r) && s.list[e.i] < p.wallets
    requires Spending(p, s)
    requires Held(s.ledger, (s.list[e.i], s.list[e.i] * p.coins + e.j)) <= p.initial
    ensures Spending(p, r)
  {
    hide FirstFree, Params.Debit, PerCoin, Rest, SendsOf, NoneWorth;
    var y, key := s.list[e.i], (s.list[e.i], s.list[e.i] * p.coins + e.j);
    FirstFitTurn(p, s, y, e.j);
    NoBorrow(Held(s.ledger, key), p.Debit());
    forall x: nat, j: nat | x < p.wallets && j < p.coins
      ensures Held(r.ledger, (x, p.Minted(x)[j].id)) == Rest(p, SendsOf(r, x), j)
    {
      SendCounted(p, s, e, r, x);
      RestNext(p, SendsOf(s, y), e.j, j);
      assert Held(s.ledger, (x, p.Minted(x)[j].id)) == Rest(p, SendsOf(s, x), j);
    }
  }

  lemma SendCounted(p: Params, s: State, e: Event, r: State, x: nat)
    requires s.Placed() && Happens(p, s, e, r)
    ensures SendsOf(r, x) == SendsOf(s, x) + if e.Send? && s.list[e.i] == x then 1 else 0
  {
    hide FirstFree, FirstWorth, NoneWorth, TakeSender, TakeReceiver, SendLog, Sends, Params.Debit, NoneFree, Picked;
    LogGrows(p, s, e, r);
    var log := SendLog(s.AllTransfers());
    if e.Send? {
      var share := Share(s.list[e.i], [Coin(s.list[e.i] * p.coins + e.j, p.Debit())]);
      SendsOne(log, share, x);
    } else {
      assert log + [] == log;
    }
  }

  /** Other steps leave a wallet's own coins alone. */
  lemma OthersKeep(p: Params, order: seq<nat>, k: nat, e: Event, x: nat, id: nat)
    requires p.Valid() && Shuffled(p, order) && !e.Send? && p.Owns(x, id)
    requires Happens(p, At(p, order, k), e, At(p, order, k + 1))
    ensures Held(At(p, order, k + 1).ledger, (x, id)) == Held(At(p, order, k).ledger, (x, id))
  {
    hide Step, BookOf, Params.Owns, TakeReceiver, CreditAll, FirstFree, PartShape, FullShape;
    var s, r := At(p, order, k), At(p, order, k + 1);
    Provenance(p, order, k, x, id);
    Provenance(p, order, k + 1, x, id);
    Shapes(p, order, k);
    BookGrows(p, s, e, r);
    MovedAppend(BookOf(s), Entry(p, s, e), Debit, (x, id));
    EntryCredits(p, s, e, (x, id));
  }

  lemma EntryCredits(p: Params, s: State, e: Event, key: Key)
    requires !e.Send? && (e.Receive? ==> e.i < |s.list|)
    ensures Moved(Entry(p, s, e), Debit, key) == 0
  {
    NotTouched(Entry(p, s, e), Debit, key);
  }

  lemma MintedOwned(p: Params, x: nat, j: nat)
    requires x < p.wallets && j < p.coins
    ensures p.Owns(x, p.Minted(x)[j].id)
  {
  }

  /**
   First fit in closed form, after every step: what is left of each coin of each wallet depends only on how
   often the wallet has sent, and no wallet has sent more often than it could afford.
   */
  lemma {:induction false} OwnCoins(p: Params, order: seq<nat>, k: nat)
    requires p.Valid() && Shuffled(p, order)
    ensures Spending(p, At(p, order, k)) && Affordable(p, At(p, order, k))
  {
    hide Step, Happens, Spending, Affordable;
    if k == 0 {
      NothingSpent(p, order);
    } else {
      OwnCoins(p, order, k - 1);
      var e := EventAt(p, order, k - 1);
      SpendStep(p, order, k - 1, e);
    }
  }

  lemma NothingSpent(p: Params, order: seq<nat>)
    ensures Spending(p, Init(p, order)) && Affordable(p, Init(p, order))
  {
    hide Mint, Params.Debit;
    var s := Init(p, order);
    assert s.AllTransfers()[..0] == [];
    assert SendLog(s.AllTransfers()) == [];
    forall x: nat, j: nat | x < p.wallets && j < p.coins
      ensures Held(s.ledger, (x, p.Minted(x)[j].id)) == Rest(p, 0, j)
    {
      MintedOwned(p, x, j);
      MintHolds(p, x, p.Minted(x)[j].id);
    }
  }

  lemma SpendStep(p: Params, order: seq<nat>, k: nat, e: Event)
    requires p.Valid() && Shuffled(p, order)
    requires Happens(p, At(p, order, k), e, At(p, order, k + 1))
    requires Spending(p, At(p, order, k)) && Affordable(p, At(p, order, k))
    ensures Spending(p, At(p, order, k + 1)) && Affordable(p, At(p, order, k + 1))
  {
    hide Step, TakeSender, TakeReceiver, FirstFree, FirstWorth, NoneWorth, SendsOf, CanSend, Spending, Affordable;
    var s, r := At(p, order, k), At(p, order, k + 1);
    if e.Send? {
      ListedWallets(p, order, k, e.i);
      HeldAtMost(p, order, k, s.list[e.i], s.list[e.i] * p.coins + e.j);
      SendSpends(p, s, e, r);
      FirstFitTurn(p, s, s.list[e.i], e.j);
    } else {
      SameSpending(p, order, k, e);
    }
    StaysAffordable(p, s, e, r);
  }

  lemma StaysAffordable(p: Params, s: State, e: Event, r: State)
    requires s.Placed() && Happens(p, s, e, r) && Affordable(p, s)
    requires e.Send? ==> e.i < |s.list| && CanSend(p, SendsOf(s, s.list[e.i]))
    ensures Affordable(p, r)
  {
    hide Happens, SendsOf, CanSend;
    forall x: nat | SendsOf(r, x) > 0 ensures CanSend(p, SendsOf(r, x) - 1) {
      SendCounted(p, s, e, r, x);
    }
  }

  lemma SameSpending(p: Params, order: seq<nat>, k: nat, e: Event)
    requires p.Valid() && Shuffled(p, order) && !e.Send?
    requires Happens(p, At(p, order, k), e, At(p, order, k + 1))
    requires Spending(p, At(p, order, k))
    ensures Spending(p, At(p, order, k + 1))
  {
    hide Step, Happens, Rest, SendsOf;
    var s, r := At(p, order, k), At(p, order, k + 1);
    forall x: nat, j: nat | x < p.wallets && j < p.coins
      ensures Held(r.ledger, (x, p.Minted(x)[j].id)) == Rest(p, SendsOf(r, x), j)
    {
      MintedOwned(p, x, j);
      OthersKeep(p, order, k, e, x, p.Minted(x)[j].id);
      SendCounted(p, s, e, r, x);
    }
  }

  // ----- Which coin pays

  /**
   Closed form of the coin choice: the send with `n` earlier sends of the same wallet spends that wallet's
   coin number `n / (initial / price)`.
   */
  lemma {:induction false} WhichCoin(p: Params, order: seq<nat>, k: nat, a: nat)
    requires p.Valid() && Shuffled(p, order)
    requires a < |SendLog(At(p, order, k).AllTransfers())|
    ensures var log := SendLog(At(p, order, k).AllTransfers());
            var x := log[a].wallet;
            log[a] == Share(x, [Coin(x * p.coins + CoinOfSend(p, Sends(log[..a], x)), p.Debit())])
  {
    hide Step, Happens, CoinOfSend, Sends, Params.Debit, SendLog;
    if k == 0 {
      EmptyLog(p, order);
    } else {
      var s, r := At(p, order, k - 1), At(p, order, k);
      var e := EventAt(p, order, k - 1);
      LogGrows(p, s, e, r);
      var log, now := SendLog(s.AllTransfers()), SendLog(r.AllTransfers());
      if a < |log| {
        WhichCoin(p, order, k - 1, a);
        assert now[..a] == log[..a];
      } else {
        assert now[..a] == log;
        NextCoin(p, order, k - 1, e);
      }
    }
  }

  lemma EmptyLog(p: Params, order: seq<nat>)
    ensures SendLog(Init(p, order).AllTransfers()) == []
  {
    assert Init(p, order).AllTransfers()[..0] == [];
  }

  lemma NextCoin(p: Params, order: seq<nat>, k: nat, e: Event)
    requires p.Valid() && Shuffled(p, order) && e.Send?
    requires Happens(p, At(p, order, k), e, At(p, order, k + 1))
    ensures var s := At(p, order, k); e.i < |s.list| && CoinOfSend(p, SendsOf(s, s.list[e.i])) == e.j
  {
    hide Step, FirstFree, TakeSender, Spending, Affordable, FirstWorth, CoinOfSend, SendsOf;
    var s := At(p, order, k);
    ListedWallets(p, order, k, e.i);
    OwnCoins(p, order, k);
    FirstFitTurn(p, s, s.list[e.i], e.j);
  }

  // ----- Not enough funds

  /** The wallet at entry `i` is picked next, as a sender. */
  ghost predicate NextToSend(p: Params, s: State, i: nat)
    requires s.Placed()
  {
    && s.status == Running && !(s.AtBoundary() && |s.list| < p.Size())
    && |s.partial.senders| < p.senders && NextFree(s, i)
  }

  /**
   Exactly when a pick fails: a wallet that is next to send stops the run with "Not enough funds" if it has
   sent as often as its coins allow, and only then.
   */
  lemma FailsExactly(p: Params, order: seq<nat>, k: nat, i: nat)
    requires p.Valid() && Shuffled(p, order)
    ensures var s := At(p, order, k);
            NextToSend(p, s, i) ==>
              (At(p, order, k + 1).status == OutOfFunds <==> !CanSend(p, SendsOf(s, s.list[i])))
  {
    hide Step, TakeSender, TakeReceiver, Spending, Affordable, NoneWorth, FirstWorth, CoinOfSend, SendsOf, CanSend;
    var s, r := At(p, order, k), At(p, order, k + 1);
    if NextToSend(p, s, i) {
      var e := EventAt(p, order, k);
      ListedWallets(p, order, k, i);
      OwnCoins(p, order, k);
      ScanFinds(s.list, s.cursor, Picked(s.partial));
      if e.Send? {
        FirstFitTurn(p, s, s.list[i], e.j);
        StillRunning(p, s, e);
      } else if e.Broke? {
        NoneLeft(p, s, s.list[i]);
      }
    }
  }

  lemma StillRunning(p: Params, s: State, e: Event)
    requires s.Placed() && e.Send? && e.i < |s.list|
    ensures TakeSender(p, s, e.i, s.list[e.i] * p.coins + e.j).status == s.status
  {
  }

  lemma {:induction false} SendsInNames(ts: seq<Transfer>, x: nat)
    ensures Sends(SendLog(ts), x) <= Used(ts)[x]
  {
    if ts != [] {
      var t := ts[|ts| - 1];
      SendsInNames(ts[..|ts| - 1], x);
      SendsAppend(SendLog(ts[..|ts| - 1]), t.senders, x);
      SendsAreNames(t.senders, x);
    }
  }

  lemma {:induction false} SendsAppend(es: seq<Share>, fs: seq<Share>, x: nat)
    ensures Sends(es + fs, x) == Sends(es, x) + Sends(fs, x)
  {
    if fs == [] {
      assert es + fs == es;
    } else {
      var n := |fs| - 1;
      SendsAppend(es, fs[..n], x);
      assert (es + fs)[..|es + fs| - 1] == es + fs[..n];
    }
  }

  lemma {:induction false} SendsAreNames(es: seq<Share>, x: nat)
    ensures Sends(es, x) == multiset(Names(es))[x]
  {
    if es != [] {
      var n := |es| - 1;
      SendsAreNames(es[..n], x);
      assert Names(es) == Names(es[..n]) + [es[n].wallet];
    }
  }

  /** A wallet that is still in the list has sent less often than it may appear. */
  lemma {:induction false} SendsBelowRounds(p: Params, order: seq<nat>, k: nat, x: nat)
    requires Shuffled(p, order) && x in At(p, order, k).list
    ensures SendsOf(At(p, order, k), x) < p.rounds
  {
    hide Step, NamesOf, SendLog, Sends;
    var s := At(p, order, k);
    SendsInNames(s.AllTransfers(), x);
    Accounting(p, order, k);
    ShuffledCount(p, order, x);
    assert x in multiset(s.list);
  }

  lemma CanSendLess(p: Params, k: nat, m: nat)
    requires k <= m && CanSend(p, m)
    ensures CanSend(p, k)
  {
    hide PerCoin, Params.Debit;
  }

  /** The step into the failed state, if there is one. */
  lemma {:induction false} FailedPick(p: Params, order: seq<nat>, k: nat) returns (m: nat, i: nat)
    requires p.Valid() && Shuffled(p, order) && At(p, order, k).status == OutOfFunds
    ensures m < k
    ensures var s := At(p, order, m); NextToSend(p, s, i) && !CanSend(p, SendsOf(s, s.list[i]))
  {
    hide Step, TakeSender, TakeReceiver, SendsOf, CanSend, FirstWorth, NoneWorth;
    if At(p, order, k - 1).status == OutOfFunds {
      m, i := FailedPick(p, order, k - 1);
    } else {
      var e := EventAt(p, order, k - 1);
      SameStatus(p, At(p, order, k - 1), e);
      m, i := k - 1, e.i;
      FailsExactly(p, order, m, i);
    }
  }

  lemma SameStatus(p: Params, s: State, e: Event)
    requires s.Placed()
    ensures e.Send? && e.i < |s.list| ==> TakeSender(p, s, e.i, s.list[e.i] * p.coins + e.j).status == s.status
    ensures e.Receive? && e.i < |s.list| && p.receivers > 0 ==> TakeReceiver(p, s, e.i).status == s.status
  {
  }

  /** With enough funds for every appearance of a wallet as a sender, no run fails. */
  lemma {:induction false} NeverFails(p: Params, order: seq<nat>, k: nat)
    requires p.Valid() && Shuffled(p, order)
    requires p.rounds > 0 ==> CanSend(p, p.rounds - 1)
    ensures At(p, order, k).status != OutOfFunds
  {
    hide Step, SendsOf, CanSend, Happens;
    if At(p, order, k).status == OutOfFunds {
      var m, i := FailedPick(p, order, k);
      var x := At(p, order, m).list[i];
      SendsBelowRounds(p, order, m, x);
      CanSendLess(p, SendsOf(At(p, order, m), x), p.rounds - 1);
    }
  }
}
