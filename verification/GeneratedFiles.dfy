/** Every generated workload survives its file. */
module GeneratedFiles {
  import opened Common
  import opened Workload
  import opened Ledgers
  import opened Machine
  import opened Invariants
  import opened Accounts
  import opened Schedules
  import opened Text
  import opened FileFormat
  import opened RoundTrip

  /** The workload that a run ends with. */
  function Generated(p: Params, order: seq<nat>): Contents {
    var s := Final(p, order);
    Contents(p, MintedWallets(p), s.transfers, s.ledger)
  }

  lemma {:induction false} MintedPlaces(p: Params, n: nat)
    ensures |Places(WalletsBelow(p, n))| == n * p.coins
  {
    hide Places, WalletsBelow;
    if n == 0 {
      NoPlaces(p);
    } else {
      MintedPlaces(p, n - 1);
      NextWallet(p, n - 1);
      if p.coins > 0 {
        PlacesPut(WalletsBelow(p, n - 1), n - 1, p.Minted(n - 1));
      }
      assert (n - 1) * p.coins + p.coins == n * p.coins;
    }
  }

  lemma NoPlaces(p: Params)
    ensures Places(WalletsBelow(p, 0)) == {}
  {
  }

  /** What a run ends with has the shape that its parameters announce. */
  lemma GeneratedShaped(p: Params, order: seq<nat>)
    requires p.Valid() && Shuffled(p, order)
    ensures Shaped(Generated(p, order))
  {
    hide Step, Final, Places, PartShape;
    Shapes(p, order, 1 + 2 * |order|);
    FinalIs(p, order);
    MintedPlaces(p, p.wallets);
    forall t | t in Final(p, order).transfers ensures |t.senders| == p.senders && |t.receivers| == p.receivers {
      assert FullShape(p, t);
    }
  }

  lemma FinalIs(p: Params, order: seq<nat>)
    ensures Final(p, order) == At(p, order, 1 + 2 * |order|)
  {
    hide Step;
  }

  /** The number of coins, transfers and ledger keys can be counted in 64 bits. */
  predicate Countable(f: Contents) {
    f.p.wallets * f.p.coins <= TWO_64 && |f.transfers| < TWO_64 && |f.expected| < TWO_64
  }

  lemma DebitFits(p: Params)
    ensures p.Debit() < TWO_32
  {
  }

  lemma SenderFits(p: Params, e: Share)
    requires SenderShape(p, e) && FitsParams(p) && p.wallets * p.coins <= TWO_64
    ensures FitsShare(e) && FitsCoin(Coin(e.coins[0].id, p.Debit()))
  {
    OwnedBelow(p, e.wallet, e.coins[0].id);
    DebitFits(p);
    forall c | c in e.coins ensures FitsCoin(c) {
      assert c == e.coins[0];
    }
  }

  lemma PaidCoinFits(p: Params, c: Coin)
    requires FitsCoin(c) && p.receivers > 0
    ensures FitsCoin(Coin(c.id, c.value / p.receivers))
  {
    QuotientFits(c.value, p.receivers);
  }

  lemma ReceiverFits(p: Params, ss: seq<Share>, e: Share)
    requires FitsParams(p) && p.wallets * p.coins <= TWO_64 && p.receivers > 0
    requires |ss| <= p.senders && forall s | s in ss :: SenderShape(p, s)
    requires e.wallet < p.wallets && e.coins == Payout(p, Inputs(ss))
    ensures FitsShare(e)
  {
    hide Params.Debit, Params.Owns, FitsCoin;
    InputsOfSingles(p, ss);
    forall j | 0 <= j < |ss| ensures FitsCoin(e.coins[j]) {
      assert SenderShape(p, ss[j]);
      SenderFits(p, ss[j]);
      PaidCoinFits(p, ss[j].coins[0]);
    }
  }

  lemma TransferFits(p: Params, t: Transfer)
    requires FullShape(p, t) && FitsParams(p) && p.wallets * p.coins <= TWO_64
    ensures FitsTransfer(t)
  {
    hide SenderShape, FitsParams, Payout, Inputs, Distinct, FitsShare;
    forall e | e in t.senders ensures FitsShare(e) {
      SenderFits(p, e);
    }
    forall e | e in t.receivers ensures FitsShare(e) {
      SendersBound(p);
      ReceiverFits(p, t.senders, e);
    }
  }

  lemma SendersBound(p: Params)
    requires FitsParams(p)
    ensures p.senders < TWO_64
  {
  }

  lemma WalletFits(p: Params, w: nat)
    requires FitsParams(p) && p.wallets * p.coins <= TWO_64 && w < p.wallets
    ensures FitsWallet(w, p.Minted(w))
  {
    forall c | c in p.Minted(w) ensures FitsCoin(c) {
      assert p.Owns(w, c.id);
      OwnedBelow(p, w, c.id);
    }
  }

  lemma PositionFits(p: Params, order: seq<nat>, k: Key)
    requires p.Valid() && Shuffled(p, order) && k in Final(p, order).ledger
    requires FitsParams(p) && p.wallets * p.coins <= TWO_64
    ensures k.0 < TWO_64 && FitsCoin(Coin(k.1, Final(p, order).ledger[k]))
  {
    hide Step, Final, BookOf, Params.Owns;
    var m := 1 + 2 * |order|;
    FinalIs(p, order);
    HeldAtMost(p, order, m, k.0, k.1);
    LedgerKeys(p, order, m, k.0, k.1);
    if p.Owns(k.0, k.1) {
      OwnedBelow(p, k.0, k.1);
      OwnerExists(p, k.0, k.1);
    } else {
      StateProper(p, order, m);
      var x :| x in BookOf(At(p, order, m)) && x.side == Credit && x.key == k;
      assert Proper(p, x);
      var w :| p.Owns(w, k.1);
      OwnedBelow(p, w, k.1);
    }
  }

  lemma OwnerExists(p: Params, w: nat, id: nat)
    requires p.Owns(w, id)
    ensures w < p.wallets
  {
  }

  lemma GeneratedFits(p: Params, order: seq<nat>)
    requires p.Valid() && Shuffled(p, order) && FitsParams(p) && Countable(Generated(p, order))
    ensures Fits(Generated(p, order))
  {
    hide Step, Final, FitsParams, FitsTransfer, FitsWallet, FitsCoin, PartShape;
    var f := Generated(p, order);
    Shapes(p, order, 1 + 2 * |order|);
    FinalIs(p, order);
    forall t | t in f.transfers ensures FitsTransfer(t) {
      assert FullShape(p, t);
      TransferFits(p, t);
    }
    forall w | w in f.wallets ensures FitsWallet(w, f.wallets[w]) {
      WalletFits(p, w);
    }
    forall k | k in f.expected ensures k.0 < TWO_64 && FitsCoin(Coin(k.1, f.expected[k])) {
      PositionFits(p, order, k);
    }
  }

  /**
   Writing a generated workload and reading it back, character by character, gives the same parameters,
   wallets, transfers and expected values, and nothing is left over.
   */
  lemma GeneratedFileRoundTrip(p: Params, order: seq<nat>)
    requires p.Valid() && Shuffled(p, order) && FitsParams(p) && Countable(Generated(p, order))
    ensures ReadFile(Tokens(FileText(Generated(p, order)))) == Some((Generated(p, order), []))
  {
    hide Generated, ReadFile, Tokens, FileText, Fits, Shaped;
    GeneratedFits(p, order);
    GeneratedShaped(p, order);
    FileRoundTrip(Generated(p, order));
  }
}
