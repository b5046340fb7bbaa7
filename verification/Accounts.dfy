/** What the transfers do to coins: who is debited, who is credited, and how much of a coin goes missing. */
module Accounts {
  import opened Common
  import opened Workload
  import opened Ledgers
  import opened Machine
  import opened Invariants

  /** How often coin `id` is sent. */
  function Spends(es: seq<Share>, id: nat): nat {
    if es == [] then 0
    else
      var e := es[|es| - 1];
      Spends(es[..|es| - 1], id) + if e.coins != [] && e.coins[0].id == id then 1 else 0
  }

  function SpendsAll(ts: seq<Transfer>, id: nat): nat {
    if ts == [] then 0 else SpendsAll(ts[..|ts| - 1], id) + Spends(ts[|ts| - 1].senders, id)
  }

  ghost predicate OnSide(xs: seq<Posting>, side: Side) {
    forall x | x in xs :: x.side == side
  }

  lemma {:induction false} OtherSide(xs: seq<Posting>, side: Side, other: Side, id: nat)
    requires OnSide(xs, side) && side != other
    ensures CoinMoved(xs, other, id) == 0
  {
    if xs != [] {
      OtherSide(xs[..|xs| - 1], side, other, id);
    }
  }

  lemma {:induction false} SharesOnSide(side: Side, es: seq<Share>)
    ensures OnSide(SharePostings(side, es), side)
  {
    if es != [] {
      SharesOnSide(side, es[..|es| - 1]);
    }
  }

  lemma {:induction false} SendersPay(p: Params, es: seq<Share>, id: nat)
    requires forall e | e in es :: SenderShape(p, e)
    ensures CoinMoved(SharePostings(Debit, es), Debit, id) == p.Debit() * Spends(es, id)
  {
    hide Params.Debit, Params.Credit, Params.Owns;
    if es != [] {
      var n := |es| - 1;
      SendersPay(p, es[..n], id);
      assert SenderShape(p, es[n]);
      var xs := CoinPostings(Debit, es[n].wallet, es[n].coins);
      assert xs == [Posting(Debit, (es[n].wallet, es[n].coins[0].id), p.Debit())];
      MovedAppend(SharePostings(Debit, es[..n]), xs, Debit, (0, id));
      assert xs[..0] == [];
      assert p.Debit() * (Spends(es[..n], id) + 1) == p.Debit() * Spends(es[..n], id) + p.Debit();
    }
  }

  lemma PayoutAppend(p: Params, coins: seq<Coin>, id: nat, w: nat)
    requires p.receivers > 0
    ensures CoinPostings(Credit, w, Payout(p, coins + [Coin(id, p.Debit())]))
         == CoinPostings(Credit, w, Payout(p, coins)) + [Posting(Credit, (w, id), p.Credit())]
  {
  }

  /** One receiver gets its part of every coin that is sent. */
  lemma {:induction false} PayoutMoves(p: Params, es: seq<Share>, w: nat, id: nat)
    requires p.receivers > 0 && forall e | e in es :: SenderShape(p, e)
    ensures CoinMoved(CoinPostings(Credit, w, Payout(p, Inputs(es))), Credit, id) == p.Credit() * Spends(es, id)
  {
    hide Params.Debit, Params.Credit, Params.Owns;
    if es != [] {
      var n := |es| - 1;
      PayoutMoves(p, es[..n], w, id);
      assert SenderShape(p, es[n]);
      var coin := es[n].coins[0].id;
      var xs := [Posting(Credit, (w, coin), p.Credit())];
      assert es[n].coins == [Coin(coin, p.Debit())];
      PayoutAppend(p, Inputs(es[..n]), coin, w);
      MovedAppend(CoinPostings(Credit, w, Payout(p, Inputs(es[..n]))), xs, Credit, (0, id));
      assert xs[..0] == [];
      assert p.Credit() * (Spends(es[..n], id) + 1) == p.Credit() * Spends(es[..n], id) + p.Credit();
    }
  }

  lemma {:induction false} EachGets(es: seq<Share>, id: nat, a: nat)
    requires forall e | e in es :: CoinMoved(CoinPostings(Credit, e.wallet, e.coins), Credit, id) == a
    ensures CoinMoved(SharePostings(Credit, es), Credit, id) == |es| * a
  {
    if es != [] {
      var n := |es| - 1;
      EachGets(es[..n], id, a);
      MovedAppend(SharePostings(Credit, es[..n]), CoinPostings(Credit, es[n].wallet, es[n].coins), Credit, (0, id));
      assert es[n] in es;
      Successor(n, a);
    }
  }

  lemma {:induction false} ReceiversGet(p: Params, ss: seq<Share>, es: seq<Share>, id: nat)
    requires p.receivers > 0 && forall e | e in ss :: SenderShape(p, e)
    requires forall e | e in es :: e.coins == Payout(p, Inputs(ss))
    ensures CoinMoved(SharePostings(Credit, es), Credit, id) == |es| * (p.Credit() * Spends(ss, id))
  {
    hide Params.Debit, Params.Credit, SenderShape, Payout, Inputs, CoinPostings;
    var a := p.Credit() * Spends(ss, id);
    forall e | e in es ensures CoinMoved(CoinPostings(Credit, e.wallet, e.coins), Credit, id) == a {
      PayoutMoves(p, ss, e.wallet, id);
    }
    EachGets(es, id, a);
  }

  /** What a transfer takes from a coin, and what it pays out of it. */
  lemma TransferMoves(p: Params, t: Transfer, id: nat)
    requires PartShape(p, t)
    ensures CoinMoved(Postings(t), Debit, id) == p.Debit() * Spends(t.senders, id)
    ensures CoinMoved(Postings(t), Credit, id) == |t.receivers| * (p.Credit() * Spends(t.senders, id))
  {
    var a, b := SharePostings(Debit, t.senders), SharePostings(Credit, t.receivers);
    MovedAppend(a, b, Debit, (0, id));
    MovedAppend(a, b, Credit, (0, id));
    SharesOnSide(Debit, t.senders);
    SharesOnSide(Credit, t.receivers);
    OtherSide(a, Debit, Credit, id);
    OtherSide(b, Credit, Debit, id);
    SendersPay(p, t.senders, id);
    if p.receivers > 0 {
      ReceiversGet(p, t.senders, t.receivers, id);
    } else {
      assert b == [];
    }
  }

  lemma NothingMoved(id: nat)
    ensures forall side :: CoinMoved([], side, id) == 0
  {
  }

  lemma {:induction false} BookMoves(p: Params, ts: seq<Transfer>, id: nat)
    requires forall t | t in ts :: FullShape(p, t)
    ensures CoinMoved(Book(ts), Debit, id) == p.Debit() * SpendsAll(ts, id)
    ensures CoinMoved(Book(ts), Credit, id) == p.receivers * (p.Credit() * SpendsAll(ts, id))
  {
    hide Params.Debit, Params.Credit, Postings, Spends, CoinMoved;
    NothingMoved(id);
    if ts != [] {
      var n := |ts| - 1;
      BookMoves(p, ts[..n], id);
      assert FullShape(p, ts[n]);
      TransferMoves(p, ts[n], id);
      MovedAppend(Book(ts[..n]), Postings(ts[n]), Debit, (0, id));
      MovedAppend(Book(ts[..n]), Postings(ts[n]), Credit, (0, id));
      Distribute(p, SpendsAll(ts[..n], id), Spends(ts[n].senders, id));
    }
  }

  lemma Distribute(p: Params, a: nat, b: nat)
    ensures p.Debit() * (a + b) == p.Debit() * a + p.Debit() * b
    ensures p.receivers * (p.Credit() * (a + b)) == p.receivers * (p.Credit() * a) + p.receivers * (p.Credit() * b)
  {
    assert p.Credit() * (a + b) == p.Credit() * a + p.Credit() * b;
  }

  lemma CreditShare(p: Params)
    ensures p.receivers * p.Credit() <= p.Debit()
  {
  }

  /** The receivers of a transfer never get more of a coin than its sender pays. */
  lemma PayoutFits(p: Params, m: nat, spends: nat)
    requires m <= p.receivers
    ensures m * (p.Credit() * spends) <= p.Debit() * spends
  {
    hide Params.Debit, Params.Credit;
    var q := p.Credit();
    CreditShare(p);
    MulMonotone(m, p.receivers, q);
    MulAssoc(m, q, spends);
    MulMonotone(m * q, p.Debit(), spends);
  }

  // ----- Provenance

  /** Only the wallet that minted a coin is debited for it, and only other wallets are credited with it. */
  ghost predicate Proper(p: Params, x: Posting) {
    && x.key.0 < p.wallets
    && (x.side == Debit ==> p.Owns(x.key.0, x.key.1))
    && (x.side == Credit ==> !p.Owns(x.key.0, x.key.1) && exists w :: p.Owns(w, x.key.1))
  }

  lemma {:induction false} SendersProper(p: Params, es: seq<Share>, x: Posting)
    requires forall e | e in es :: SenderShape(p, e)
    requires x in SharePostings(Debit, es)
    ensures Proper(p, x)
  {
    var n := |es| - 1;
    assert SenderShape(p, es[n]);
    if x in SharePostings(Debit, es[..n]) {
      SendersProper(p, es[..n], x);
    }
  }

  lemma {:induction false} ShareOfPosting(side: Side, es: seq<Share>, x: Posting) returns (e: Share, j: nat)
    requires x in SharePostings(side, es)
    ensures e in es && j < |e.coins| && x == Posting(side, (e.wallet, e.coins[j].id), e.coins[j].value)
  {
    var n := |es| - 1;
    if x in SharePostings(side, es[..n]) {
      e, j := ShareOfPosting(side, es[..n], x);
    } else {
      e := es[n];
      var i :| 0 <= i < |CoinPostings(side, e.wallet, e.coins)| && CoinPostings(side, e.wallet, e.coins)[i] == x;
      j := i;
    }
  }

  lemma ReceiversProper(p: Params, t: Transfer, x: Posting)
    requires PartShape(p, t) && x in SharePostings(Credit, t.receivers)
    ensures Proper(p, x)
  {
    var e, j := ShareOfPosting(Credit, t.receivers, x);
    InputsOfSingles(p, t.senders);
    var d := t.senders[j];
    assert SenderShape(p, d);
    assert x.key.1 == d.coins[0].id;
    var i :| 0 <= i < |t.receivers| && t.receivers[i] == e;
    assert NamesOf(t)[j] == d.wallet && NamesOf(t)[|t.senders| + i] == e.wallet;
    if p.Owns(e.wallet, x.key.1) {
      OwnerUnique(p, e.wallet, d.wallet, x.key.1);
    }
    assert p.Owns(d.wallet, x.key.1);
  }

  lemma {:induction false} BookProper(p: Params, ts: seq<Transfer>, x: Posting)
    requires forall t | t in ts :: PartShape(p, t)
    requires x in Book(ts)
    ensures Proper(p, x)
  {
    var n := |ts| - 1;
    assert PartShape(p, ts[n]);
    if x in Book(ts[..n]) {
      BookProper(p, ts[..n], x);
    } else if x in SharePostings(Debit, ts[n].senders) {
      SendersProper(p, ts[n].senders, x);
    } else {
      ReceiversProper(p, ts[n], x);
    }
  }
}
