/** The published contract of a workload, for finished runs, and exactly when it holds. */
module Contract {
  import opened Common
  import opened Workload
  import opened Ledgers
  import opened Machine
  import opened Events
  import opened Invariants
  import opened Accounts
  import opened Schedules
  import opened Completion

  /** Two ledgers agree when every wallet holds the same of every coin; an absent coin is worth nothing. */
  ghost predicate Agree(a: Ledger, b: Ledger) {
    forall k: Key :: Held(a, k) == Held(b, k)
  }

  lemma CompleteAtBoundary(p: Params, order: seq<nat>)
    requires p.Valid() && Shuffled(p, order) && Final(p, order).status != OutOfFunds
    ensures Final(p, order).AtBoundary() <==> Final(p, order).status == Complete
  {
    hide Step;
    Terminates(p, order);
    StopReasons(p, order, 1 + 2 * |order|);
  }

  /** How the ledger of a state differs from the execution of its emitted transfers. */
  lemma PartialEffect(p: Params, order: seq<nat>, k: nat, key: Key)
    requires p.Valid() && Shuffled(p, order)
    ensures var s := At(p, order, k);
            && Execute(Mint(p), s.transfers).Some?
            && Held(s.ledger, key) + Moved(Postings(s.partial), Debit, key)
               == Held(Execute(Mint(p), s.transfers).value, key) + Moved(Postings(s.partial), Credit, key)
  {
    hide Step, PostAll, Moved, Book, Mint, BookOf;
    var s := At(p, order, k);
    AnySchedule(p, order, k, s.transfers);
    ExecuteIsPostAll(Mint(p), s.transfers);
    Replays(p, order, k);
    PostedValue(Mint(p), Book(s.transfers), key);
    PostedValue(Mint(p), BookOf(s), key);
    BookSplits(s);
    MovedAppend(Book(s.transfers), Postings(s.partial), Debit, key);
    MovedAppend(Book(s.transfers), Postings(s.partial), Credit, key);
  }

  /** A partial transfer without senders, or at no price, moves nothing. */
  lemma FreePartial(p: Params, t: Transfer, key: Key)
    requires PartShape(p, t) && (t == NO_TRANSFER || p.senders == 0 || p.Debit() == 0)
    ensures Moved(Postings(t), Debit, key) == 0 && Moved(Postings(t), Credit, key) == 0
  {
    hide Params.Debit, Params.Credit, PartShape, Postings, Spends, CoinMoved;
    TransferMoves(p, t, key.1);
    MovedAtMost(Postings(t), Debit, key);
    MovedAtMost(Postings(t), Credit, key);
    NoSpends(p, t, key.1);
    PayoutFits(p, |t.receivers|, Spends(t.senders, key.1));
  }

  lemma NoSpends(p: Params, t: Transfer, id: nat)
    requires PartShape(p, t) && (t == NO_TRANSFER || p.senders == 0 || p.Debit() == 0)
    ensures |t.receivers| <= p.receivers && p.Debit() * Spends(t.senders, id) == 0
  {
  }

  lemma {:induction false} MovedIncludes(xs: seq<Posting>, x: Posting)
    requires x in xs
    ensures x.amount <= Moved(xs, x.side, x.key)
  {
    var n := |xs| - 1;
    if x in xs[..n] {
      MovedIncludes(xs[..n], x);
    }
  }

  lemma {:induction false} FirstSenderPosting(p: Params, es: seq<Share>)
    requires es != [] && forall e | e in es :: SenderShape(p, e)
    ensures |es[0].coins| == 1
    ensures Posting(Debit, (es[0].wallet, es[0].coins[0].id), p.Debit()) in SharePostings(Debit, es)
  {
    var n := |es| - 1;
    assert SenderShape(p, es[0]);
    if n == 0 {
      var xs := CoinPostings(Debit, es[0].wallet, es[0].coins);
      assert xs[0] == Posting(Debit, (es[0].wallet, es[0].coins[0].id), p.Debit());
    } else {
      FirstSenderPosting(p, es[..n]);
    }
  }

  /** A partial transfer that has taken money from its first sender shows in the ledger. */
  lemma PaidPartial(p: Params, t: Transfer) returns (key: Key)
    requires PartShape(p, t) && t != NO_TRANSFER && p.senders > 0 && p.Debit() > 0
    ensures Moved(Postings(t), Debit, key) > 0 && Moved(Postings(t), Credit, key) == 0
  {
    hide Params.Debit, Payout;
    var e := t.senders[0];
    assert SenderShape(p, e);
    key := (e.wallet, e.coins[0].id);
    var x := Posting(Debit, key, p.Debit());
    FirstSenderPosting(p, t.senders);
    MovedIncludes(Postings(t), x);
    if key in Touched(Postings(t), Credit) {
      var y :| y in Postings(t) && y.side == Credit && y.key == key;
      CreditIsProper(p, t, y);
    }
    NotTouched(Postings(t), Credit, key);
  }

  lemma CreditIsProper(p: Params, t: Transfer, y: Posting)
    requires PartShape(p, t) && y in Postings(t) && y.side == Credit
    ensures !p.Owns(y.key.0, y.key.1)
  {
    hide Params.Owns;
    SharesOnSide(Debit, t.senders);
    ReceiversProper(p, t, y);
  }

  /** A partial transfer that nobody pays for, or that is empty, moves nothing at all. */
  lemma {:induction false} NoCoinsNoPostings(side: Side, es: seq<Share>)
    requires forall e | e in es :: e.coins == []
    ensures SharePostings(side, es) == []
  {
    if es != [] {
      NoCoinsNoPostings(side, es[..|es| - 1]);
    }
  }

  lemma EmptyPartial(p: Params, t: Transfer)
    requires PartShape(p, t) && (t == NO_TRANSFER || p.senders == 0)
    ensures Postings(t) == []
  {
    assert t.senders == [];
    NoCoinsNoPostings(Credit, t.receivers);
  }

  lemma SameOutcome(p: Params, order: seq<nat>, k: nat)
    requires p.Valid() && Shuffled(p, order)
    requires At(p, order, k).AtBoundary() || p.senders == 0
    ensures Execute(Mint(p), At(p, order, k).transfers) == Some(At(p, order, k).ledger)
  {
    hide Step, PostAll, Book, Postings, Mint, PartShape, FullShape;
    var s := At(p, order, k);
    Shapes(p, order, k);
    EmptyPartial(p, s.partial);
    BookSplits(s);
    assert Book(s.transfers) + [] == Book(s.transfers);
    ExecuteIsPostAll(Mint(p), s.transfers);
    Replays(p, order, k);
  }

  /**
   Exactly when the contract holds: a run that does not fail publishes what every wallet holds after executing its
   transfers if and only if it ends without abandoning one, or sends nothing of value anyway. In that last case the
   published map may have positions of value zero that the execution does not create; otherwise the maps are equal.
   */
  lemma ContractHoldsExactly(p: Params, order: seq<nat>)
    requires p.Valid() && Shuffled(p, order) && Final(p, order).status != OutOfFunds
    ensures var s := Final(p, order);
            && Execute(Mint(p), s.transfers).Some?
            && (Agree(Execute(Mint(p), s.transfers).value, s.ledger) <==>
                s.status == Complete || p.senders == 0 || p.Debit() == 0)
            && (s.status == Complete || p.senders == 0 ==> Execute(Mint(p), s.transfers) == Some(s.ledger))
  {
    hide Step, Execute, Mint, PartShape, FullShape, Postings, Params.Debit;
    var k := 1 + 2 * |order|;
    var s := At(p, order, k);
    CompleteAtBoundary(p, order);
    Shapes(p, order, k);
    PartialEffect(p, order, k, (0, 0));
    if s.status == Complete || p.senders == 0 {
      SameOutcome(p, order, k);
    }
    var m := Execute(Mint(p), s.transfers).value;
    if s.status == Complete || p.senders == 0 || p.Debit() == 0 {
      forall key: Key ensures Held(m, key) == Held(s.ledger, key) {
        PartialEffect(p, order, k, key);
        FreePartial(p, s.partial, key);
      }
    } else {
      var key := PaidPartial(p, s.partial);
      PartialEffect(p, order, k, key);
    }
  }

  // ----- A run that breaks the contract

  const TWICE := Params(1, 1, 2, 1, 1, 10, 1, 0)

  const TWICE_LEFT := State([0], 0, Mint(TWICE)[(0, 0) := 9], [], Transfer([Share(0, [Coin(0, 1)])], []), Running)

  lemma TwiceStarts()
    ensures Held(Mint(TWICE), (0, 0)) == 10
    ensures Step(TWICE, Init(TWICE, [0, 0])) == TWICE_LEFT
  {
    var s := Init(TWICE, [0, 0]);
    MintHolds(TWICE, 0, 0);
    assert TWICE.Minted(0) == [Coin(0, 10)];
    assert NamesOf(NO_TRANSFER) == [];
    assert FirstFree([0, 0], 0, Picked(NO_TRANSFER), 0) == Some(0);
    assert FirstFit(s.ledger, 0, [Coin(0, 10)], 1, 0) == Some(0);
    assert Erase([0, 0], 0) == [0];
  }

  lemma TwiceGivesUp()
    ensures Step(TWICE, TWICE_LEFT) == TWICE_LEFT.(status := Abandoned)
  {
    assert NamesOf(TWICE_LEFT.partial) == [0];
    assert Circular([0], 0, 0) == 0;
    ScanFinds([0], 0, Picked(TWICE_LEFT.partial));
  }

  /** One wallet that has to appear twice cannot pay itself: its first debit is booked, the transfer is not. */
  lemma ContractBroken()
    ensures TWICE.Valid() && Shuffled(TWICE, [0, 0])
    ensures var s := Final(TWICE, [0, 0]);
            && s.status == Abandoned && s.transfers == []
            && Held(s.ledger, (0, 0)) == 9
            && Execute(Mint(TWICE), s.transfers) == Some(Mint(TWICE)) && Held(Mint(TWICE), (0, 0)) == 10
  {
    hide Step, Final;
    assert WalletList(TWICE, 1) == [0, 0];
    TwiceStarts();
    TwiceGivesUp();
    assert At(TWICE, [0, 0], 2) == Step(TWICE, Step(TWICE, Init(TWICE, [0, 0])));
    StoppedIsFinal(TWICE, [0, 0], 2);
  }

  // ----- Conservation for finished runs

  /** The price is the sum of what the receivers are to get, reduced by a multiple of 2^32 until it fits 32 bits. */
  lemma PriceWraps(p: Params)
    ensures p.Debit() < 0x1_0000_0000
    ensures exists q: nat :: p.amount * p.receivers == q * 0x1_0000_0000 + p.Debit()
    ensures p.receivers > 0 ==> p.receivers * p.Credit() <= p.Debit() < p.receivers * p.Credit() + p.receivers
  {
    var sum := p.amount * p.receivers;
    assert sum == (sum / TWO_32) * 0x1_0000_0000 + p.Debit();
  }

  /** Without truncation every receiver gets the transfer value, and the sender pays exactly that much. */
  lemma NoTruncation(p: Params)
    requires p.amount * p.receivers < TWO_32
    ensures p.Debit() == p.receivers * p.Credit()
    ensures p.receivers > 0 ==> p.Credit() == p.amount
  {
    Untruncated(p.amount * p.receivers);
    if p.receivers > 0 {
      ExactQuotient(p.amount, p.receivers);
    }
  }

  lemma MissingZero(a: int, n: nat)
    requires a >= 0
    ensures a * n == 0 <==> a == 0 || n == 0
  {
  }

  /**
   A coin keeps its value over a complete run if and only if it is never spent or the price divides evenly
   among the receivers.
   */
  lemma {:induction false} CoinKept(p: Params, order: seq<nat>, w: nat, id: nat)
    requires p.Valid() && Shuffled(p, order) && p.Owns(w, id)
    requires Final(p, order).status == Complete
    ensures var s := Final(p, order);
            CoinTotal(s.ledger, id, p.wallets) == p.initial <==>
            p.Debit() == p.receivers * p.Credit() || SpendsAll(s.transfers, id) == 0
  {
    hide Step, Params.Debit, Params.Credit, Params.Owns;
    var k := 1 + 2 * |order|;
    var s := At(p, order, k);
    CompleteAtBoundary(p, order);
    CoinConservation(p, order, k, w, id);
    PayoutFits(p, p.receivers, 1);
    MissingZero(p.Debit() - p.receivers * p.Credit(), SpendsAll(s.transfers, id));
  }

  /** In every emitted transfer, each coin is paid out exactly as far as the price divides evenly. */
  lemma TransferBalance(p: Params, order: seq<nat>, k: nat, t: Transfer, id: nat)
    requires Shuffled(p, order) && t in At(p, order, k).transfers
    ensures CoinMoved(Postings(t), Debit, id) == p.Debit() * Spends(t.senders, id)
    ensures CoinMoved(Postings(t), Credit, id) == p.receivers * (p.Credit() * Spends(t.senders, id))
    ensures p.amount * p.receivers < TWO_32 ==>
              CoinMoved(Postings(t), Credit, id) == CoinMoved(Postings(t), Debit, id)
  {
    hide Step, Params.Debit, Params.Credit, Postings, SenderShape, Payout, Spends, CoinMoved;
    Shapes(p, order, k);
    assert FullShape(p, t);
    TransferMoves(p, t, id);
    if p.amount * p.receivers < TWO_32 {
      NoTruncation(p);
      assert p.receivers * (p.Credit() * Spends(t.senders, id))
          == (p.receivers * p.Credit()) * Spends(t.senders, id);
    }
  }
}
