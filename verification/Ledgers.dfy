/**
 A reference ledger. It executes transfers one coin movement at a time, refuses to overdraw a coin or to
 overflow 32 bits, and knows nothing about how a workload is generated.
 */
module Ledgers {
  import opened Common
  import opened Workload

  datatype Side = Debit | Credit
  datatype Posting = Posting(side: Side, key: Key, amount: nat)

  function Post(l: Ledger, x: Posting): Option<Ledger> {
    match x.side
    case Debit => if x.key in l && x.amount <= l[x.key] then Some(l[x.key := l[x.key] - x.amount]) else None
    case Credit =>
      if Held(l, x.key) + x.amount < TWO_32 then Some(l[x.key := Held(l, x.key) + x.amount]) else None
  }

  function PostAll(l: Ledger, xs: seq<Posting>): Option<Ledger> {
    if xs == [] then Some(l)
    else
      var n := |xs| - 1;
      match PostAll(l, xs[..n])
      case None => None
      case Some(m) => Post(m, xs[n])
  }

  function CoinPostings(side: Side, w: nat, coins: seq<Coin>): seq<Posting> {
    seq(|coins|, j requires 0 <= j < |coins| => Posting(side, (w, coins[j].id), coins[j].value))
  }

  function SharePostings(side: Side, es: seq<Share>): seq<Posting> {
    if es == [] then []
    else
      var n := |es| - 1;
      SharePostings(side, es[..n]) + CoinPostings(side, es[n].wallet, es[n].coins)
  }

  /** A transfer first takes every sent coin and then pays every receiver. */
  function Postings(t: Transfer): seq<Posting> {
    SharePostings(Debit, t.senders) + SharePostings(Credit, t.receivers)
  }

  function Book(ts: seq<Transfer>): seq<Posting> {
    if ts == [] then [] else Book(ts[..|ts| - 1]) + Postings(ts[|ts| - 1])
  }

  /** Execution of a schedule, transfer by transfer. */
  function Execute(l: Ledger, ts: seq<Transfer>): Option<Ledger> {
    if ts == [] then Some(l)
    else
      match Execute(l, ts[..|ts| - 1])
      case None => None
      case Some(m) => PostAll(m, Postings(ts[|ts| - 1]))
  }

  // ----- Sums over postings

  function Moved(xs: seq<Posting>, side: Side, k: Key): nat {
    if xs == [] then 0
    else
      var x := xs[|xs| - 1];
      Moved(xs[..|xs| - 1], side, k) + if x.side == side && x.key == k then x.amount else 0
  }

  /** The amount of one coin moved on one side, over all wallets. */
  function CoinMoved(xs: seq<Posting>, side: Side, id: nat): nat {
    if xs == [] then 0
    else
      var x := xs[|xs| - 1];
      CoinMoved(xs[..|xs| - 1], side, id) + if x.side == side && x.key.1 == id then x.amount else 0
  }

  function Touched(xs: seq<Posting>, side: Side): set<Key> {
    set x | x in xs && x.side == side :: x.key
  }

  /** The value of a coin over the first `n` wallets. */
  function CoinTotal(l: Ledger, id: nat, n: nat): nat {
    if n == 0 then 0 else CoinTotal(l, id, n - 1) + Held(l, (n - 1, id))
  }

  lemma {:induction false} PostAllAppend(l: Ledger, xs: seq<Posting>, ys: seq<Posting>)
    ensures PostAll(l, xs + ys) ==
            match PostAll(l, xs) case None => None case Some(m) => PostAll(m, ys)
  {
    if ys == [] {
      assert xs + ys == xs;
    } else {
      var n := |ys| - 1;
      PostAllAppend(l, xs, ys[..n]);
      assert (xs + ys)[..|xs + ys| - 1] == xs + ys[..n];
    }
  }

  lemma PostAllOne(l: Ledger, xs: seq<Posting>, x: Posting)
    requires PostAll(l, xs).Some?
    ensures PostAll(l, xs + [x]) == Post(PostAll(l, xs).value, x)
  {
    assert (xs + [x])[..|xs|] == xs;
  }

  lemma {:induction false} ExecuteIsPostAll(l: Ledger, ts: seq<Transfer>)
    ensures Execute(l, ts) == PostAll(l, Book(ts))
  {
    if ts != [] {
      var n := |ts| - 1;
      ExecuteIsPostAll(l, ts[..n]);
      PostAllAppend(l, Book(ts[..n]), Postings(ts[n]));
    }
  }

  lemma {:induction false} MovedAppend(xs: seq<Posting>, ys: seq<Posting>, side: Side, k: Key)
    ensures Moved(xs + ys, side, k) == Moved(xs, side, k) + Moved(ys, side, k)
    ensures CoinMoved(xs + ys, side, k.1) == CoinMoved(xs, side, k.1) + CoinMoved(ys, side, k.1)
  {
    if ys == [] {
      assert xs + ys == xs;
    } else {
      var n := |ys| - 1;
      MovedAppend(xs, ys[..n], side, k);
      assert (xs + ys)[..|xs + ys| - 1] == xs + ys[..n];
    }
  }

  lemma {:induction false} BookAppend(ts: seq<Transfer>, us: seq<Transfer>)
    ensures Book(ts + us) == Book(ts) + Book(us)
  {
    hide Postings;
    if us == [] {
      assert ts + us == ts;
    } else {
      var n := |us| - 1;
      BookAppend(ts, us[..n]);
      assert (ts + us)[..|ts + us| - 1] == ts + us[..n];
    }
  }

  lemma BookOne(ts: seq<Transfer>, t: Transfer)
    ensures Book(ts + [t]) == Book(ts) + Postings(t)
  {
    assert (ts + [t])[..|ts|] == ts;
  }

  // ----- Reordering

  /** Takes one element out of `ys`, when `xs` and that element are among `ys`. */
  lemma Pluck<T>(xs: seq<T>, x: T, ys: seq<T>) returns (a: seq<T>, b: seq<T>)
    requires multiset(xs + [x]) <= multiset(ys)
    ensures ys == a + [x] + b
    ensures multiset(xs) <= multiset(a + b)
    ensures multiset(xs + [x]) == multiset(ys) ==> multiset(xs) == multiset(a + b)
  {
    assert x in multiset(xs + [x]) && x in multiset(ys);
    var i :| 0 <= i < |ys| && ys[i] == x;
    a, b := ys[..i], ys[i + 1..];
    assert ys == a + [x] + b;
    assert multiset(a + b) == multiset(ys) - multiset{x};
    assert multiset(xs) == multiset(xs + [x]) - multiset{x};
  }

  /** A selection of postings moves no more than the whole. */
  lemma {:induction false} MovedOfSelection(xs: seq<Posting>, ys: seq<Posting>, side: Side, k: Key)
    requires multiset(xs) <= multiset(ys)
    ensures Moved(xs, side, k) <= Moved(ys, side, k)
    ensures multiset(xs) == multiset(ys) ==> Moved(xs, side, k) == Moved(ys, side, k)
  {
    if xs == [] {
      if multiset(xs) == multiset(ys) {
        assert |multiset(ys)| == |ys|;
      }
    } else {
      var n := |xs| - 1;
      var x := xs[n];
      assert xs == xs[..n] + [x];
      var a, b := Pluck(xs[..n], x, ys);
      MovedOfSelection(xs[..n], a + b, side, k);
      MovedAppend(a, b, side, k);
      MovedAppend(a, [x], side, k);
      MovedAppend(a + [x], b, side, k);
    }
  }

  /** Selecting transfers selects their postings. */
  lemma {:induction false} BookOfSelection(us: seq<Transfer>, ts: seq<Transfer>)
    requires multiset(us) <= multiset(ts)
    ensures multiset(Book(us)) <= multiset(Book(ts))
    ensures multiset(us) == multiset(ts) ==> multiset(Book(us)) == multiset(Book(ts))
  {
    if us == [] {
      if multiset(us) == multiset(ts) {
        assert |multiset(ts)| == |ts|;
      }
    } else {
      var n := |us| - 1;
      var u := us[n];
      assert us == us[..n] + [u];
      var a, b := Pluck(us[..n], u, ts);
      BookOfSelection(us[..n], a + b);
      BookAppend(a, b);
      BookAppend(a + [u], b);
      BookOne(a, u);
    }
  }

  /** No coin is asked for more than it starts with, and no key can exceed 32 bits. */
  ghost predicate Covered(l: Ledger, xs: seq<Posting>) {
    && Touched(xs, Debit) <= l.Keys
    && forall k: Key :: Moved(xs, Debit, k) <= Held(l, k) && Held(l, k) + Moved(xs, Credit, k) < TWO_32
  }

  lemma CoveredSelection(l: Ledger, xs: seq<Posting>, ys: seq<Posting>)
    requires Covered(l, ys) && multiset(xs) <= multiset(ys)
    ensures Covered(l, xs)
  {
    forall k: Key
      ensures Moved(xs, Debit, k) <= Held(l, k) && Held(l, k) + Moved(xs, Credit, k) < TWO_32
    {
      MovedOfSelection(xs, ys, Debit, k);
      MovedOfSelection(xs, ys, Credit, k);
    }
    forall k | k in Touched(xs, Debit) ensures k in l {
      var x :| x in xs && x.side == Debit && x.key == k;
      assert x in multiset(xs) && x in multiset(ys);
    }
  }

  lemma NothingTouched()
    ensures forall side :: Touched([], side) == {}
  {
  }

  lemma TouchedOne(xs: seq<Posting>, x: Posting)
    ensures Touched(xs + [x], x.side) == Touched(xs, x.side) + {x.key}
    ensures forall side | side != x.side :: Touched(xs + [x], side) == Touched(xs, side)
  {
    assert x in xs + [x];
    forall y | y in xs ensures y in xs + [x] {
    }
  }

  lemma PostOne(l: Ledger, x: Posting, k: Key)
    requires Post(l, x).Some?
    ensures var m := Post(l, x).value;
            && Held(m, k) + (if x.side == Debit && x.key == k then x.amount else 0)
               == Held(l, k) + (if x.side == Credit && x.key == k then x.amount else 0)
            && (k in m <==> k in l || (x.side == Credit && x.key == k))
  {
  }

  /** A ledger that has been posted to holds what it held, plus what came in, less what went out. */
  lemma {:induction false} PostedValue(l: Ledger, xs: seq<Posting>, k: Key)
    requires PostAll(l, xs).Some?
    ensures var m := PostAll(l, xs).value;
            && Held(m, k) + Moved(xs, Debit, k) == Held(l, k) + Moved(xs, Credit, k)
            && (k in m <==> k in l || k in Touched(xs, Credit))
  {
    hide Touched, Post;
    NothingTouched();
    if xs != [] {
      var n := |xs| - 1;
      PostedValue(l, xs[..n], k);
      PostOne(PostAll(l, xs[..n]).value, xs[n], k);
      TouchedOne(xs[..n], xs[n]);
      assert xs == xs[..n] + [xs[n]];
    }
  }

  /** Covered postings can be executed, in this very order. */
  lemma {:induction false} CoveredPosts(l: Ledger, xs: seq<Posting>)
    requires Covered(l, xs)
    ensures PostAll(l, xs).Some?
  {
    if xs != [] {
      var n := |xs| - 1;
      var x := xs[n];
      assert xs == xs[..n] + [x];
      CoveredSelection(l, xs[..n], xs);
      CoveredPosts(l, xs[..n]);
      PostedValue(l, xs[..n], x.key);
    }
  }

  /**
   Postings that are covered can be executed in any order, also interleaved, and any part of them
   can be executed on its own. All of them together always lead to the same ledger.
   */
  lemma {:induction false} AnyOrder(l: Ledger, xs: seq<Posting>, ys: seq<Posting>)
    requires Covered(l, ys) && multiset(xs) <= multiset(ys)
    ensures PostAll(l, xs).Some?
    ensures multiset(xs) == multiset(ys) ==> PostAll(l, xs) == PostAll(l, ys)
  {
    CoveredSelection(l, xs, ys);
    CoveredPosts(l, xs);
    if multiset(xs) == multiset(ys) {
      CoveredPosts(l, ys);
      var a, b := PostAll(l, xs).value, PostAll(l, ys).value;
      forall k: Key ensures (k in a <==> k in b) && Held(a, k) == Held(b, k) {
        PostedValue(l, xs, k);
        PostedValue(l, ys, k);
        MovedOfSelection(xs, ys, Debit, k);
        MovedOfSelection(xs, ys, Credit, k);
        forall x ensures x in xs <==> x in ys {
          assert x in xs <==> x in multiset(xs);
          assert x in ys <==> x in multiset(ys);
        }
      }
      forall k: Key | k in a ensures k in b && a[k] == b[k] {
        assert Held(a, k) == Held(b, k);
      }
      assert a == b;
    }
  }

  // ----- Conservation

  lemma {:induction false} CoinTotalUpdate(l: Ledger, k: Key, v: nat, id: nat, n: nat)
    ensures CoinTotal(l[k := v], id, n) == CoinTotal(l, id, n) +
            (if k.1 == id && k.0 < n then v - Held(l, k) else 0)
  {
    if n > 0 {
      CoinTotalUpdate(l, k, v, id, n - 1);
    }
  }

  lemma {:induction false} CoinTotalBounds(l: Ledger, x: nat, id: nat, n: nat)
    requires x < n
    ensures Held(l, (x, id)) <= CoinTotal(l, id, n)
  {
    if x < n - 1 {
      CoinTotalBounds(l, x, id, n - 1);
    }
  }

  /** Over the wallets involved, a coin gains what is credited and loses what is debited. */
  lemma {:induction false} CoinBalance(l: Ledger, xs: seq<Posting>, id: nat, n: nat)
    requires PostAll(l, xs).Some?
    requires forall x | x in xs :: x.key.0 < n
    ensures CoinTotal(PostAll(l, xs).value, id, n) + CoinMoved(xs, Debit, id)
            == CoinTotal(l, id, n) + CoinMoved(xs, Credit, id)
  {
    if xs != [] {
      var i := |xs| - 1;
      var x, m := xs[i], PostAll(l, xs[..i]).value;
      assert x in xs;
      CoinBalance(l, xs[..i], id, n);
      CoinTotalUpdate(m, x.key, PostAll(l, xs).value[x.key], id, n);
    }
  }

  lemma {:induction false} CoinTotalOfOne(l: Ledger, w: nat, id: nat, v: nat, n: nat)
    requires forall x: nat :: Held(l, (x, id)) == if x == w then v else 0
    ensures CoinTotal(l, id, n) == if w < n then v else 0
  {
    if n > 0 {
      CoinTotalOfOne(l, w, id, v, n - 1);
    }
  }

  lemma MintTotal(p: Params, w: nat, id: nat)
    requires p.Owns(w, id)
    ensures CoinTotal(Mint(p), id, p.wallets) == p.initial
  {
    forall x: nat ensures Held(Mint(p), (x, id)) == if x == w then p.initial else 0 {
      MintedByOwner(p, w, id, x);
    }
    CoinTotalOfOne(Mint(p), w, id, p.initial, p.wallets);
  }
}
