/**
 The published contract of a workload: its ledger is what executing the transfers leads to. Proved for every
 reachable state of the generator, against the reference ledger and for every order of execution.
 */
module Schedules {
  import opened Common
  import opened Workload
  import opened Ledgers
  import opened Machine
  import opened Events
  import opened Invariants
  import opened Accounts

  /** Everything that the ledger of a state has been posted. */
  function BookOf(s: State): seq<Posting> {
    Book(s.AllTransfers())
  }

  lemma BookSplits(s: State)
    ensures BookOf(s) == Book(s.transfers) + Postings(s.partial)
  {
    BookOne(s.transfers, s.partial);
  }

  /** How a step extends the book. */
  function Entry(p: Params, s: State, e: Event): seq<Posting>
    requires e.Send? || e.Receive? ==> e.i < |s.list|
  {
    match e
    case Send(i, j) => [Posting(Debit, (s.list[i], s.list[i] * p.coins + j), p.Debit())]
    case Receive(i) =>
      if p.receivers == 0 then [] else CoinPostings(Credit, s.list[i], Payout(p, Inputs(s.partial.senders)))
    case _ => []
  }

  lemma SharePostingsOne(side: Side, es: seq<Share>, e: Share)
    ensures SharePostings(side, es + [e]) == SharePostings(side, es) + CoinPostings(side, e.wallet, e.coins)
  {
    assert (es + [e])[..|es|] == es;
  }

  lemma PostingsGrow(t: Transfer, e: Share)
    ensures t.receivers == [] ==>
              Postings(t.(senders := t.senders + [e])) == Postings(t) + CoinPostings(Debit, e.wallet, e.coins)
    ensures Postings(t.(receivers := t.receivers + [e])) == Postings(t) + CoinPostings(Credit, e.wallet, e.coins)
  {
    SharePostingsOne(Debit, t.senders, e);
    SharePostingsOne(Credit, t.receivers, e);
    assert SharePostings(Credit, []) == [];
  }

  lemma BookGrows(p: Params, s: State, e: Event, r: State)
    requires s.Placed() && Happens(p, s, e, r) && PartShape(p, s.partial)
    ensures BookOf(r) == BookOf(s) + Entry(p, s, e)
  {
    hide FirstFree, FirstWorth, NoneWorth, CreditAll, Payout, Params.Debit, Postings, CoinPostings, Book, BookOf;
    BookSplits(s);
    BookSplits(r);
    match e {
      case Send(i, j) =>
        var x := r.partial.senders[|s.partial.senders|];
        PostingsGrow(s.partial, x);
        OnePosting(x);
      case Receive(i) =>
        PostingsGrow(s.partial, r.partial.receivers[|s.partial.receivers|]);
      case Emit =>
        BookOne(s.transfers, s.partial);
        NoPostings();
      case _ =>
    }
  }

  lemma OnePosting(x: Share)
    requires |x.coins| == 1
    ensures CoinPostings(Debit, x.wallet, x.coins) == [Posting(Debit, (x.wallet, x.coins[0].id), x.coins[0].value)]
  {
  }

  lemma NoPostings()
    ensures Postings(NO_TRANSFER) == []
  {
  }

  // ----- Balance of a state

  /** How much of coin `id` has been taken from its owner and not, or not yet, paid to anybody. */
  function Missing(p: Params, s: State, id: nat): int {
    (p.Debit() - p.receivers * p.Credit()) * SpendsAll(s.transfers, id)
    + (p.Debit() - |s.partial.receivers| * p.Credit()) * Spends(s.partial.senders, id)
  }

  lemma BookBalance(p: Params, s: State, id: nat)
    requires PartShape(p, s.partial) && forall t | t in s.transfers :: FullShape(p, t)
    ensures CoinMoved(BookOf(s), Debit, id) == CoinMoved(BookOf(s), Credit, id) + Missing(p, s, id)
    ensures Missing(p, s, id) >= 0
  {
    hide Params.Debit, Params.Credit, SenderShape, Payout, Inputs, Distinct, Book, Postings, CoinMoved, Spends, SpendsAll;
    BookSplits(s);
    var a, b := Book(s.transfers), Postings(s.partial);
    MovedAppend(a, b, Debit, (0, id));
    MovedAppend(a, b, Credit, (0, id));
    BookMoves(p, s.transfers, id);
    TransferMoves(p, s.partial, id);
    Missed(p, p.receivers, SpendsAll(s.transfers, id));
    Missed(p, |s.partial.receivers|, Spends(s.partial.senders, id));
  }

  lemma Missed(p: Params, m: nat, spends: nat)
    requires m <= p.receivers
    ensures 0 <= (p.Debit() - m * p.Credit()) * spends == p.Debit() * spends - m * (p.Credit() * spends)
  {
    hide Params.Debit, Params.Credit;
    var d, q := p.Debit(), p.Credit();
    PayoutFits(p, m, spends);
    assert (m * q) * spends == m * (q * spends);
    assert (d - m * q) * spends == d * spends - (m * q) * spends;
  }

  lemma AllPartShapes(p: Params, s: State)
    requires PartShape(p, s.partial) && forall t | t in s.transfers :: FullShape(p, t)
    ensures forall t | t in s.AllTransfers() :: PartShape(p, t)
  {
  }

  // ----- In-order replay

  /** A receiver is credited coin by coin; the ledger never reaches 32 bits. */
  lemma {:induction false} CreditsPost(l0: Ledger, book: seq<Posting>, l: Ledger, w: nat, coins: seq<Coin>, n: nat)
    requires PostAll(l0, book) == Some(l)
    requires w < n && forall x | x in book :: x.key.0 < n
    requires forall c | c in coins ::
               && CoinTotal(l0, c.id, n) < TWO_32
               && CoinMoved(book + CoinPostings(Credit, w, coins), Credit, c.id) <= CoinMoved(book, Debit, c.id)
    ensures PostAll(l0, book + CoinPostings(Credit, w, coins)) == Some(CreditAll(l, w, coins))
  {
    hide CoinTotal, CoinMoved, PostAll, Post, CreditAll;
    if coins == [] {
      CreditNone(l, w);
      assert book + CoinPostings(Credit, w, coins) == book;
    } else {
      var m := |coins| - 1;
      var c, front := coins[m], coins[..m];
      var xs, x := book + CoinPostings(Credit, w, front), Posting(Credit, (w, c.id), c.value);
      assert book + CoinPostings(Credit, w, coins) == xs + [x];
      forall d | d in front
        ensures CoinTotal(l0, d.id, n) < TWO_32 && CoinMoved(xs, Credit, d.id) <= CoinMoved(book, Debit, d.id)
      {
        assert d in coins;
        MovedAppend(xs, [x], Credit, (0, d.id));
      }
      CreditsPost(l0, book, l, w, front, n);
      forall y | y in xs ensures y.key.0 < n {
      }
      CreditFits(l0, book, xs, w, c, n);
      PostAllOne(l0, xs, x);
      PostCredit(CreditAll(l, w, front), w, c);
      CreditOne(l, w, front, c);
      assert coins == front + [c];
    }
  }

  lemma PostCredit(m: Ledger, w: nat, c: Coin)
    requires Held(m, (w, c.id)) + c.value < TWO_32
    ensures Post(m, Posting(Credit, (w, c.id), c.value)) == Some(m[(w, c.id) := Add32(Held(m, (w, c.id)), c.value)])
  {
  }

  lemma CreditFits(l0: Ledger, book: seq<Posting>, xs: seq<Posting>, w: nat, c: Coin, n: nat)
    requires book <= xs && PostAll(l0, xs).Some?
    requires w < n && forall x | x in xs :: x.key.0 < n
    requires CoinTotal(l0, c.id, n) < TWO_32
    requires CoinMoved(xs + [Posting(Credit, (w, c.id), c.value)], Credit, c.id) <= CoinMoved(book, Debit, c.id)
    ensures Held(PostAll(l0, xs).value, (w, c.id)) + c.value < TWO_32
  {
    var x := Posting(Credit, (w, c.id), c.value);
    MovedAppend(xs, [x], Credit, (0, c.id));
    assert [x][..0] == [];
    assert xs == book + xs[|book|..];
    MovedAppend(book, xs[|book|..], Debit, (0, c.id));
    CoinBalance(l0, xs, c.id, n);
    CoinTotalBounds(PostAll(l0, xs).value, w, c.id, n);
  }

  /** The value of a coin over all wallets, in a state whose ledger is the replay of its book. */
  lemma {:induction false} StateTotal(p: Params, s: State, id: nat)
    requires PartShape(p, s.partial) && forall t | t in s.transfers :: FullShape(p, t)
    requires PostAll(Mint(p), BookOf(s)) == Some(s.ledger)
    ensures CoinTotal(s.ledger, id, p.wallets) + Missing(p, s, id) == CoinTotal(Mint(p), id, p.wallets)
  {
    AllPartShapes(p, s);
    forall x | x in BookOf(s) ensures x.key.0 < p.wallets {
      BookProper(p, s.AllTransfers(), x);
    }
    CoinBalance(Mint(p), BookOf(s), id, p.wallets);
    BookBalance(p, s, id);
  }

  lemma MintAtMost(p: Params, id: nat)
    ensures CoinTotal(Mint(p), id, p.wallets) <= p.initial
  {
    if w :| p.Owns(w, id) {
      MintTotal(p, w, id);
    } else {
      forall x: nat ensures Held(Mint(p), (x, id)) == 0 {
        MintHolds(p, x, id);
      }
      CoinTotalOfOne(Mint(p), 0, id, 0, p.wallets);
    }
  }

  ghost predicate Replayed(p: Params, s: State) {
    PostAll(Mint(p), BookOf(s)) == Some(s.ledger)
  }

  lemma SendPosts(l0: Ledger, xs: seq<Posting>, l: Ledger, key: Key, price: nat)
    requires PostAll(l0, xs) == Some(l) && key in l && price <= l[key] < TWO_32
    ensures PostAll(l0, xs + [Posting(Debit, key, price)]) == Some(l[key := Sub32(Held(l, key), price)])
  {
    NoBorrow(l[key], price);
    PostAllOne(l0, xs, Posting(Debit, key, price));
  }

  lemma SendReplays(p: Params, s: State, e: Event, r: State)
    requires p.Valid() && s.Placed() && e.Send? && Happens(p, s, e, r) && s.list[e.i] < p.wallets
    requires PartShape(p, s.partial) && forall t | t in s.transfers :: FullShape(p, t)
    requires Replayed(p, s)
    ensures Replayed(p, r)
  {
    hide FirstFree, Params.Debit, Missing, PostAll, BookOf, Mint, PartShape;
    var x, id := s.list[e.i], s.list[e.i] * p.coins + e.j;
    BookGrows(p, s, e, r);
    PostedValue(Mint(p), BookOf(s), (x, id));
    assert p.Owns(x, id);
    MintHolds(p, x, id);
    StateTotal(p, s, id);
    BookBalance(p, s, id);
    MintAtMost(p, id);
    CoinTotalBounds(s.ledger, x, id, p.wallets);
    SendPosts(Mint(p), BookOf(s), s.ledger, (x, id), p.Debit());
  }

  lemma ReceiveReplays(p: Params, s: State, e: Event, r: State)
    requires p.Valid() && s.Placed() && e.Receive? && Happens(p, s, e, r) && s.list[e.i] < p.wallets
    requires PartShape(p, s.partial) && forall t | t in s.transfers :: FullShape(p, t)
    requires PartShape(p, r.partial)
    requires Replayed(p, s)
    ensures Replayed(p, r)
  {
    hide FirstFree, CreditAll, Payout, Missing, BookOf, PostAll, CoinTotal, CoinMoved, Inputs, SenderShape, Distinct;
    BookGrows(p, s, e, r);
    AllPartShapes(p, s);
    forall x | x in BookOf(s) ensures x.key.0 < p.wallets {
      PostingProper(p, s, x);
    }
    var coins := Payout(p, Inputs(s.partial.senders));
    forall c | c in coins
      ensures CoinTotal(Mint(p), c.id, p.wallets) < TWO_32
      ensures CoinMoved(BookOf(r), Credit, c.id) <= CoinMoved(BookOf(s), Debit, c.id)
    {
      MintAtMost(p, c.id);
      BookBalance(p, r, c.id);
      MovedAppend(BookOf(s), Entry(p, s, e), Debit, (0, c.id));
      OtherSide(Entry(p, s, e), Credit, Debit, c.id);
    }
    CreditsPost(Mint(p), BookOf(s), s.ledger, s.list[e.i], coins, p.wallets);
  }

  /**
   After every step, the ledger is what the reference ledger holds once it has executed, from the minted
   wallets, every emitted transfer and then the partial one. In particular none of the 32-bit additions and
   subtractions of the generator wraps around.
   */
  lemma {:induction false} Replays(p: Params, order: seq<nat>, k: nat)
    requires p.Valid() && Shuffled(p, order)
    ensures Replayed(p, At(p, order, k))
  {
    hide Step, Happens;
    if k == 0 {
      var s := At(p, order, 0);
      BookSplits(s);
      assert BookOf(s) == [];
    } else {
      Replays(p, order, k - 1);
      Shapes(p, order, k - 1);
      Shapes(p, order, k);
      var s, r := At(p, order, k - 1), At(p, order, k);
      var e := EventAt(p, order, k - 1);
      ReplayStep(p, order, k, e);
    }
  }

  lemma ReplayStep(p: Params, order: seq<nat>, k: nat, e: Event)
    requires p.Valid() && Shuffled(p, order) && k > 0
    requires Happens(p, At(p, order, k - 1), e, At(p, order, k))
    requires Replayed(p, At(p, order, k - 1))
    ensures Replayed(p, At(p, order, k))
  {
    hide Step, FirstFree, TakeSender, TakeReceiver, Replayed;
    var s, r := At(p, order, k - 1), At(p, order, k);
    Shapes(p, order, k - 1);
    Shapes(p, order, k);
    match e {
      case Send(i, j) =>
        ListedWallets(p, order, k - 1, i);
        SendReplays(p, s, e, r);
      case Receive(i) =>
        ListedWallets(p, order, k - 1, i);
        ReceiveReplays(p, s, e, r);
      case _ =>
        BookGrows(p, s, e, r);
        assert r.ledger == s.ledger && BookOf(r) == BookOf(s);
        SameBook(p, s, r);
    }
  }

  lemma SameBook(p: Params, s: State, r: State)
    requires r.ledger == s.ledger && BookOf(r) == BookOf(s) && Replayed(p, s)
    ensures Replayed(p, r)
  {
  }

  // ----- Provenance and coverage

  lemma {:induction false} NotTouched(xs: seq<Posting>, side: Side, k: Key)
    requires k !in Touched(xs, side)
    ensures Moved(xs, side, k) == 0
  {
    if xs != [] {
      var n := |xs| - 1;
      assert xs[n] in xs;
      assert Touched(xs[..n], side) <= Touched(xs, side);
      NotTouched(xs[..n], side, k);
    }
  }

  lemma {:induction false} MovedAtMost(xs: seq<Posting>, side: Side, k: Key)
    ensures Moved(xs, side, k) <= CoinMoved(xs, side, k.1)
  {
    if xs != [] {
      MovedAtMost(xs[..|xs| - 1], side, k);
    }
  }

  lemma {:induction false} StateProper(p: Params, order: seq<nat>, k: nat)
    requires Shuffled(p, order)
    ensures forall x | x in BookOf(At(p, order, k)) :: Proper(p, x)
  {
    hide Step, BookOf, Proper;
    var s := At(p, order, k);
    Shapes(p, order, k);
    AllPartShapes(p, s);
    forall x | x in BookOf(s) ensures Proper(p, x) {
      PostingProper(p, s, x);
    }
  }

  lemma PostingProper(p: Params, s: State, x: Posting)
    requires forall t | t in s.AllTransfers() :: PartShape(p, t)
    requires x in BookOf(s)
    ensures Proper(p, x)
  {
    BookProper(p, s.AllTransfers(), x);
  }

  /**
   A wallet's own coins are only ever debited, and coins minted elsewhere only ever credited: what has been
   received is never sent on. So the ledger is known from one side of the book alone.
   */
  lemma Provenance(p: Params, order: seq<nat>, k: nat, x: nat, id: nat)
    requires p.Valid() && Shuffled(p, order)
    ensures var s := At(p, order, k);
            var sent, got := Moved(BookOf(s), Debit, (x, id)), Moved(BookOf(s), Credit, (x, id));
            if p.Owns(x, id) then got == 0 && Held(s.ledger, (x, id)) == p.initial - sent
            else sent == 0 && Held(s.ledger, (x, id)) == got
  {
    hide Step, BookOf, Params.Owns;
    var s := At(p, order, k);
    var book := BookOf(s);
    StateProper(p, order, k);
    Replays(p, order, k);
    PostedValue(Mint(p), book, (x, id));
    MintHolds(p, x, id);
    if p.Owns(x, id) {
      NotTouched(book, Credit, (x, id));
    } else {
      NotTouched(book, Debit, (x, id));
    }
  }

  /** The keys of the ledger are the minted positions and the positions that have been credited. */
  lemma {:induction false} LedgerKeys(p: Params, order: seq<nat>, k: nat, x: nat, id: nat)
    requires p.Valid() && Shuffled(p, order)
    ensures var s := At(p, order, k);
            (x, id) in s.ledger <==> p.Owns(x, id) || (x, id) in Touched(BookOf(s), Credit)
  {
    hide Step, BookOf, Params.Owns;
    Replays(p, order, k);
    PostedValue(Mint(p), BookOf(At(p, order, k)), (x, id));
    MintHolds(p, x, id);
  }

  /**
   Conservation, after every step: the value of a coin over all wallets, plus what its owner has paid and
   nobody has been paid, is its initial value.
   */
  lemma CoinConservation(p: Params, order: seq<nat>, k: nat, w: nat, id: nat)
    requires p.Valid() && Shuffled(p, order) && p.Owns(w, id)
    ensures var s := At(p, order, k);
            CoinTotal(s.ledger, id, p.wallets) + Missing(p, s, id) == p.initial && Missing(p, s, id) >= 0
  {
    hide Step, BookOf, Missing, Replayed;
    var s := At(p, order, k);
    Shapes(p, order, k);
    Replays(p, order, k);
    StateReplayed(p, s);
    StateTotal(p, s, id);
    BookBalance(p, s, id);
    MintTotal(p, w, id);
  }

  lemma StateReplayed(p: Params, s: State)
    requires Replayed(p, s)
    ensures PostAll(Mint(p), BookOf(s)) == Some(s.ledger)
  {
  }

  /** No position of the ledger ever holds more than the initial value of a coin. */
  lemma {:induction false} HeldAtMost(p: Params, order: seq<nat>, k: nat, x: nat, id: nat)
    requires p.Valid() && Shuffled(p, order)
    ensures Held(At(p, order, k).ledger, (x, id)) <= p.initial
  {
    hide Step, BookOf, Missing, Replayed;
    var s := At(p, order, k);
    Provenance(p, order, k, x, id);
    if !p.Owns(x, id) {
      Shapes(p, order, k);
      Replays(p, order, k);
      StateReplayed(p, s);
      StateTotal(p, s, id);
      BookBalance(p, s, id);
      MintAtMost(p, id);
      if x < p.wallets {
        CoinTotalBounds(s.ledger, x, id, p.wallets);
      } else {
        StateProper(p, order, k);
        NotTouched(BookOf(s), Credit, (x, id));
      }
    }
  }

  lemma StateCovered(p: Params, order: seq<nat>, k: nat)
    requires p.Valid() && Shuffled(p, order)
    ensures Covered(Mint(p), BookOf(At(p, order, k)))
  {
    hide Step, BookOf, Params.Owns, Mint;
    var s := At(p, order, k);
    var book := BookOf(s);
    StateProper(p, order, k);
    forall key: Key
      ensures Moved(book, Debit, key) <= Held(Mint(p), key)
      ensures Held(Mint(p), key) + Moved(book, Credit, key) < TWO_32
    {
      Provenance(p, order, k, key.0, key.1);
      HeldAtMost(p, order, k, key.0, key.1);
      MintHolds(p, key.0, key.1);
    }
    forall key | key in Touched(book, Debit) ensures key in Mint(p) {
      MintHolds(p, key.0, key.1);
    }
  }

  // ----- The contract of a workload

  /**
   Schedule independence at its finest grain. Take any state the generator reaches, and any order of the coin
   movements of its transfers, interleaved at will: they never overdraw a coin, never overflow, and lead to
   the generator's ledger. Any part of the movements can be executed too.
   */
  lemma AnyInterleaving(p: Params, order: seq<nat>, k: nat, xs: seq<Posting>)
    requires p.Valid() && Shuffled(p, order)
    requires multiset(xs) <= multiset(BookOf(At(p, order, k)))
    ensures PostAll(Mint(p), xs).Some?
    ensures multiset(xs) == multiset(BookOf(At(p, order, k))) ==>
              PostAll(Mint(p), xs) == Some(At(p, order, k).ledger)
  {
    hide Step, BookOf, PostAll;
    var s := At(p, order, k);
    StateCovered(p, order, k);
    AnyOrder(Mint(p), xs, BookOf(s));
    Replays(p, order, k);
  }

  /**
   Schedule independence, for whole transfers: executing the transfers from the minted wallets in any order
   reaches the ledger of expected values, and no selection of them in any order overdraws a coin.
   */
  lemma AnySchedule(p: Params, order: seq<nat>, k: nat, us: seq<Transfer>)
    requires p.Valid() && Shuffled(p, order)
    requires multiset(us) <= multiset(At(p, order, k).AllTransfers())
    ensures Execute(Mint(p), us).Some?
    ensures multiset(us) == multiset(At(p, order, k).AllTransfers()) ==>
              Execute(Mint(p), us) == Some(At(p, order, k).ledger)
  {
    hide Step, PostAll;
    var s := At(p, order, k);
    BookOfSelection(us, s.AllTransfers());
    AnyInterleaving(p, order, k, Book(us));
    ExecuteIsPostAll(Mint(p), us);
  }

  lemma PostNothing(l: Ledger)
    ensures PostAll(l, Postings(NO_TRANSFER)) == Some(l)
  {
    NoPostings();
  }

  /** The published contract, for a run that ends without an unfinished transfer. */
  lemma ExpectedValues(p: Params, order: seq<nat>, us: seq<Transfer>)
    requires p.Valid() && Shuffled(p, order)
    requires multiset(us) == multiset(Final(p, order).transfers)
    requires Final(p, order).AtBoundary()
    ensures Execute(Mint(p), us) == Some(Final(p, order).ledger)
  {
    hide Step, PostAll, Execute;
    var s := Final(p, order);
    var vs := us + [NO_TRANSFER];
    assert multiset(vs) == multiset(s.AllTransfers());
    AnySchedule(p, order, 1 + 2 * |order|, vs);
    ExecuteNothing(Mint(p), us);
  }

  lemma ExecuteNothing(l: Ledger, us: seq<Transfer>)
    ensures Execute(l, us + [NO_TRANSFER]) == Execute(l, us)
  {
    hide PostAll, Postings;
    assert (us + [NO_TRANSFER])[..|us|] == us;
    if Execute(l, us).Some? {
      PostNothing(Execute(l, us).value);
    }
  }
}
