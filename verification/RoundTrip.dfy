/** Exactly which workloads survive being written to a file and read back. */
module RoundTrip {
  import opened Common
  import opened Workload
  import opened Text
  import opened FileFormat

  // ----- What the file format can hold

  predicate FitsCoin(c: Coin) {
    c.id < TWO_64 && c.value < TWO_32
  }

  predicate FitsRow(r: Row) {
    r.wallet < TWO_64 && FitsCoin(r.coin)
  }

  predicate FitsWallet(w: nat, coins: seq<Coin>) {
    w < TWO_64 && forall c | c in coins :: FitsCoin(c)
  }

  predicate FitsShare(e: Share) {
    e.wallet < TWO_64 && |e.coins| < TWO_64 && forall c | c in e.coins :: FitsCoin(c)
  }

  predicate FitsTransfer(t: Transfer) {
    (forall e | e in t.senders :: FitsShare(e)) && (forall e | e in t.receivers :: FitsShare(e))
  }

  predicate FitsParams(p: Params) {
    p.wallets < TWO_64 && p.coins < TWO_64 && p.rounds < TWO_64 && p.senders < TWO_64 && p.receivers < TWO_64 &&
    p.initial < TWO_32 && p.amount < TWO_32 && p.seed < TWO_64
  }

  /** Every number fits the C++ type of the field it is stored in. */
  predicate Fits(f: Contents) {
    && FitsParams(f.p) && |f.transfers| < TWO_64 && |f.expected| < TWO_64
    && (forall w | w in f.wallets :: FitsWallet(w, f.wallets[w]))
    && (forall t | t in f.transfers :: FitsTransfer(t))
    && (forall k | k in f.expected :: k.0 < TWO_64 && FitsCoin(Coin(k.1, f.expected[k])))
  }

  /** The places of the coins in all wallets. */
  function Places(wallets: map<nat, seq<Coin>>): set<(nat, nat)> {
    set w: nat, j: nat | w in wallets && j < |wallets[w]| :: (w, j)
  }

  /** What the parameters in the first line say about the rest of the file. */
  predicate Shaped(f: Contents) {
    && (forall t | t in f.transfers :: |t.senders| == f.p.senders && |t.receivers| == f.p.receivers)
    && (forall w | w in f.wallets :: f.wallets[w] != [])
    && |Places(f.wallets)| == f.p.wallets * f.p.coins
  }

  // ----- Reading back, part by part

  lemma NumsPair(n: nat, sep: Piece, rest: seq<Piece>)
    requires !sep.Num?
    ensures Nums([Num(n), sep] + rest) == [n] + Nums(rest)
  {
    var xs := [Num(n), sep] + rest;
    assert xs[1..] == [sep] + rest && xs[1..][1..] == rest;
  }

  lemma NumsCoin(c: Coin)
    ensures Nums(CoinText(c)) == [c.id, c.value]
  {
    var tail := [Num(c.value), Space];
    NumsPair(c.value, Space, []);
    NumsPair(c.id, Space, tail);
    assert tail == tail + [] && CoinText(c) == [Num(c.id), Space] + tail;
  }

  lemma NumsRow(r: Row)
    ensures Nums(RowText(r)) == [r.wallet, r.coin.id, r.coin.value]
  {
    var last := [Num(r.coin.value), Newline];
    var tail := [Num(r.coin.id), Space] + last;
    NumsPair(r.coin.value, Newline, []);
    NumsPair(r.coin.id, Space, last);
    NumsPair(r.wallet, Space, tail);
    assert last == last + [] && RowText(r) == [Num(r.wallet), Space] + tail;
  }

  lemma NumsFlatEmpty<T>(f: T -> seq<Piece>, tail: seq<nat>)
    ensures Nums(Flat([], f)) + tail == tail
  {
  }

  lemma NumsFlat<T>(xs: seq<T>, f: T -> seq<Piece>)
    requires xs != []
    ensures Nums(Flat(xs, f)) == Nums(f(xs[0])) + Nums(Flat(xs[1..], f))
  {
    NumsAppend(f(xs[0]), Flat(xs[1..], f));
  }

  lemma NextOne(n: nat, rest: seq<nat>, limit: nat)
    ensures Next([n] + rest, limit) == if n < limit then Some((n, rest)) else None
  {
  }

  lemma CoinRead(c: Coin, tail: seq<nat>)
    requires FitsCoin(c)
    ensures ReadCoin([c.id, c.value] + tail) == Some((c, tail))
  {
    assert [c.id, c.value] + tail == [c.id] + ([c.value] + tail);
    NextOne(c.id, [c.value] + tail, TWO_64);
    NextOne(c.value, tail, TWO_32);
  }

  lemma RowRead(r: Row, tail: seq<nat>)
    requires FitsRow(r)
    ensures ReadRow(Nums(RowText(r)) + tail) == Some((r, tail))
  {
    NumsRow(r);
    assert Nums(RowText(r)) + tail == [r.wallet] + ([r.coin.id, r.coin.value] + tail);
    NextOne(r.wallet, [r.coin.id, r.coin.value] + tail, TWO_64);
    CoinRead(r.coin, tail);
  }

  lemma {:induction false} CoinsRead(coins: seq<Coin>, tail: seq<nat>, acc: seq<Coin>)
    requires forall c | c in coins :: FitsCoin(c)
    ensures ReadCoins(Nums(Flat(coins, CoinText)) + tail, |coins|, acc) == Some((acc + coins, tail))
  {
    if coins == [] {
      NumsFlatEmpty(CoinText, tail);
      assert acc + coins == acc;
    } else {
      var rest := Nums(Flat(coins[1..], CoinText)) + tail;
      NumsFlat(coins, CoinText);
      NumsCoin(coins[0]);
      assert Nums(Flat(coins, CoinText)) + tail == [coins[0].id, coins[0].value] + rest;
      CoinRead(coins[0], rest);
      CoinsRead(coins[1..], tail, acc + [coins[0]]);
      assert acc + [coins[0]] + coins[1..] == acc + coins;
    }
  }

  lemma NumsShare(e: Share)
    ensures Nums(ShareText(e)) == [e.wallet, |e.coins|] + Nums(Flat(e.coins, CoinText))
  {
    hide Flat, Nums;
    var coins := Flat(e.coins, CoinText);
    NumsPair(|e.coins|, Space, coins);
    NumsPair(e.wallet, Space, [Num(|e.coins|), Space] + coins);
    assert ShareText(e) == [Num(e.wallet), Space] + ([Num(|e.coins|), Space] + coins);
  }

  lemma ShareRead(e: Share, tail: seq<nat>)
    requires FitsShare(e)
    ensures ReadShare(Nums(ShareText(e)) + tail) == Some((e, tail))
  {
    NumsShare(e);
    var rest := Nums(Flat(e.coins, CoinText)) + tail;
    assert Nums(ShareText(e)) + tail == [e.wallet] + ([|e.coins|] + rest);
    NextOne(e.wallet, [|e.coins|] + rest, TWO_64);
    NextOne(|e.coins|, rest, TWO_64);
    CoinsRead(e.coins, tail, []);
    assert [] + e.coins == e.coins;
  }

  lemma {:induction false} SharesRead(es: seq<Share>, tail: seq<nat>, acc: seq<Share>)
    requires forall e | e in es :: FitsShare(e)
    ensures ReadShares(Nums(Flat(es, ShareText)) + tail, |es|, acc) == Some((acc + es, tail))
  {
    hide ReadShare, ShareText, FitsShare, Flat, Nums;
    if es == [] {
      NumsFlatEmpty(ShareText, tail);
      assert acc + es == acc;
    } else {
      var rest := Nums(Flat(es[1..], ShareText)) + tail;
      NumsFlat(es, ShareText);
      assert Nums(Flat(es, ShareText)) + tail == Nums(ShareText(es[0])) + rest;
      ShareRead(es[0], rest);
      SharesRead(es[1..], tail, acc + [es[0]]);
      assert acc + [es[0]] + es[1..] == acc + es;
    }
  }

  lemma NumsTransfer(t: Transfer)
    ensures Nums(TransferText(t)) == Nums(Flat(t.senders, ShareText)) + Nums(Flat(t.receivers, ShareText))
  {
    NumsAppend(Flat(t.senders, ShareText) + Flat(t.receivers, ShareText), [Newline]);
    NumsAppend(Flat(t.senders, ShareText), Flat(t.receivers, ShareText));
    assert [Newline][1..] == [];
  }

  lemma TransferRead(p: Params, t: Transfer, tail: seq<nat>)
    requires FitsTransfer(t) && |t.senders| == p.senders && |t.receivers| == p.receivers
    ensures ReadTransfer(p, Nums(TransferText(t)) + tail) == Some((t, tail))
  {
    hide ReadShares, Nums, Flat, ShareText, TransferText, FitsShare;
    NumsTransfer(t);
    var ss, rs := Nums(Flat(t.senders, ShareText)), Nums(Flat(t.receivers, ShareText));
    assert ss + rs + tail == ss + (rs + tail);
    SharesRead(t.senders, rs + tail, []);
    SharesRead(t.receivers, tail, []);
    assert [] + t.senders == t.senders && [] + t.receivers == t.receivers;
  }

  lemma {:induction false} TransfersRead(p: Params, ts: seq<Transfer>, tail: seq<nat>, acc: seq<Transfer>)
    requires forall t | t in ts :: FitsTransfer(t) && |t.senders| == p.senders && |t.receivers| == p.receivers
    ensures ReadTransfers(p, Nums(Flat(ts, TransferText)) + tail, |ts|, acc) == Some((acc + ts, tail))
  {
    hide ReadTransfer, TransferText, FitsTransfer, Flat, Nums;
    if ts == [] {
      NumsFlatEmpty(TransferText, tail);
      assert acc + ts == acc;
    } else {
      var rest := Nums(Flat(ts[1..], TransferText)) + tail;
      NumsFlat(ts, TransferText);
      assert Nums(Flat(ts, TransferText)) + tail == Nums(TransferText(ts[0])) + rest;
      TransferRead(p, ts[0], rest);
      TransfersRead(p, ts[1..], tail, acc + [ts[0]]);
      assert acc + [ts[0]] + ts[1..] == acc + ts;
    }
  }

  // ----- Wallets

  /** The part of a map with the given keys. */
  function Restrict<K, V>(m: map<K, V>, keys: seq<K>): map<K, V> {
    map k | k in keys && k in m :: m[k]
  }

  function PushAll(m: map<nat, seq<Coin>>, rows: seq<Row>): map<nat, seq<Coin>>
    decreases |rows|
  {
    if rows == [] then m else PushAll(Push(m, rows[0]), rows[1..])
  }

  lemma {:induction false} WalletsRead(rows: seq<Row>, tail: seq<nat>, acc: map<nat, seq<Coin>>)
    requires forall r | r in rows :: FitsRow(r)
    ensures ReadWallets(Nums(Flat(rows, RowText)) + tail, |rows|, acc) == Some((PushAll(acc, rows), tail))
  {
    hide ReadRow, RowText, Push, FitsRow, Flat, Nums;
    if rows == [] {
      NumsFlatEmpty(RowText, tail);
    } else {
      var rest := Nums(Flat(rows[1..], RowText)) + tail;
      NumsFlat(rows, RowText);
      assert Nums(Flat(rows, RowText)) + tail == Nums(RowText(rows[0])) + rest;
      RowRead(rows[0], rest);
      WalletsRead(rows[1..], tail, Push(acc, rows[0]));
    }
  }

  lemma {:induction false} PushAllAppend(m: map<nat, seq<Coin>>, xs: seq<Row>, ys: seq<Row>)
    ensures PushAll(m, xs + ys) == PushAll(PushAll(m, xs), ys)
    decreases |xs|
  {
    hide Push;
    if xs == [] {
      assert xs + ys == ys;
    } else {
      assert (xs + ys)[1..] == xs[1..] + ys;
      PushAllAppend(Push(m, xs[0]), xs[1..], ys);
    }
  }

  /** Pushing the coins of one wallet rebuilds that wallet. */
  lemma {:induction false} PushCoins(m: map<nat, seq<Coin>>, w: nat, coins: seq<Coin>)
    requires coins != []
    ensures PushAll(m, CoinRows(w, coins)) == m[w := (if w in m then m[w] else []) + coins]
    decreases |coins|
  {
    var rows := CoinRows(w, coins);
    assert rows[1..] == CoinRows(w, coins[1..]);
    if |coins| == 1 {
      assert coins == [coins[0]];
    } else {
      PushCoins(Push(m, rows[0]), w, coins[1..]);
      var before := if w in m then m[w] else [];
      assert before + [coins[0]] + coins[1..] == before + coins;
    }
  }

  lemma NothingPushed(m: map<nat, seq<Coin>>)
    ensures PushAll(m, []) == m
  {
  }

  lemma {:induction false} PushWallets(m: map<nat, seq<Coin>>, keys: seq<nat>, wallets: map<nat, seq<Coin>>)
    requires forall w | w in keys :: w in wallets && wallets[w] != [] && w !in m
    requires forall i, j | 0 <= i < j < |keys| :: keys[i] != keys[j]
    ensures PushAll(m, WalletRows(keys, wallets)) == m + Restrict(wallets, keys)
    decreases |keys|
  {
    hide Push, PushAll, CoinRows;
    if keys == [] {
      NothingPushed(m);
      assert m + Restrict(wallets, keys) == m;
    } else {
      var k := keys[0];
      PushAllAppend(m, CoinRows(k, wallets[k]), WalletRows(keys[1..], wallets));
      PushCoins(m, k, wallets[k]);
      assert [] + wallets[k] == wallets[k];
      var next := m[k := wallets[k]];
      forall w | w in keys[1..] ensures w !in next {
        var i :| 0 <= i < |keys[1..]| && keys[1..][i] == w;
        assert keys[i + 1] == w;
      }
      PushWallets(next, keys[1..], wallets);
      RestrictMore(m, keys, wallets);
    }
  }

  lemma RestrictMore<K, V>(acc: map<K, V>, keys: seq<K>, m: map<K, V>)
    requires keys != [] && forall k | k in keys :: k in m
    ensures acc[keys[0] := m[keys[0]]] + Restrict(m, keys[1..]) == acc + Restrict(m, keys)
  {
  }

  lemma {:induction false} RowCount(keys: seq<nat>, wallets: map<nat, seq<Coin>>)
    requires forall w | w in keys :: w in wallets
    requires forall i, j | 0 <= i < j < |keys| :: keys[i] != keys[j]
    ensures |WalletRows(keys, wallets)| == |Places(Restrict(wallets, keys))|
  {
    if keys == [] {
      assert Restrict(wallets, keys) == map[];
      assert Places(map[]) == {};
    } else {
      var k := keys[0];
      var rest := Restrict(wallets, keys[1..]);
      RowCount(keys[1..], wallets);
      forall i | 0 <= i < |keys[1..]| ensures keys[1..][i] != k {
        assert keys[i + 1] == keys[1..][i];
      }
      assert k !in rest;
      assert Restrict(wallets, keys) == rest[k := wallets[k]];
      PlacesPut(rest, k, wallets[k]);
    }
  }

  lemma {:induction false} PlacesPut(m: map<nat, seq<Coin>>, k: nat, coins: seq<Coin>)
    requires k !in m
    ensures |Places(m[k := coins])| == |Places(m)| + |coins|
  {
    if coins == [] {
      assert Places(m[k := coins]) == Places(m);
    } else {
      var n := |coins| - 1;
      PlacesPut(m, k, coins[..n]);
      assert Places(m[k := coins]) == Places(m[k := coins[..n]]) + {(k, n)};
    }
  }

  lemma PlacesPush(m: map<nat, seq<Coin>>, r: Row)
    ensures |Places(Push(m, r))| == |Places(m)| + 1
  {
    hide Places;
    var w, others := r.wallet, m - {r.wallet};
    if w in m {
      assert m == others[w := m[w]];
      PlacesPut(others, w, m[w]);
    } else {
      assert m == others;
    }
    assert Push(m, r) == others[w := (if w in m then m[w] else []) + [r.coin]];
    PlacesPut(others, w, (if w in m then m[w] else []) + [r.coin]);
  }

  // ----- The ledger

  function PutAll(l: Ledger, rows: seq<Row>): Ledger
    decreases |rows|
  {
    if rows == [] then l else PutAll(l[(rows[0].wallet, rows[0].coin.id) := rows[0].coin.value], rows[1..])
  }

  lemma {:induction false} LedgerRead(rows: seq<Row>, tail: seq<nat>, acc: Ledger)
    requires forall r | r in rows :: FitsRow(r)
    ensures ReadLedger(Nums(Flat(rows, RowText)) + tail, |rows|, acc) == Some((PutAll(acc, rows), tail))
  {
    hide ReadRow, RowText, FitsRow, Flat, Nums;
    if rows == [] {
      NumsFlatEmpty(RowText, tail);
    } else {
      var rest := Nums(Flat(rows[1..], RowText)) + tail;
      NumsFlat(rows, RowText);
      assert Nums(Flat(rows, RowText)) + tail == Nums(RowText(rows[0])) + rest;
      RowRead(rows[0], rest);
      LedgerRead(rows[1..], tail, acc[(rows[0].wallet, rows[0].coin.id) := rows[0].coin.value]);
    }
  }

  lemma {:induction false} PutLedger(acc: Ledger, keys: seq<Key>, l: Ledger)
    requires forall k | k in keys :: k in l
    ensures PutAll(acc, LedgerRows(keys, l)) == acc + Restrict(l, keys)
    decreases |keys|
  {
    if keys != [] {
      var k := keys[0];
      assert k in keys;
      assert LedgerRows(keys, l)[1..] == LedgerRows(keys[1..], l);
      PutLedger(acc[k := l[k]], keys[1..], l);
      RestrictMore(acc, keys, l);
    }
  }

  // ----- Whole files

  lemma NumsLast(n: nat)
    ensures Nums([Num(n), Newline]) == [n]
  {
    NumsPair(n, Newline, []);
    assert [Num(n), Newline] + [] == [Num(n), Newline];
  }

  lemma HeaderNums(p: Params, a: nat, b: nat)
    ensures Nums(HeaderText(p, a, b))
         == [p.wallets, p.coins, p.rounds, p.senders, p.receivers, p.initial, p.amount, p.seed, a, b]
  {
    var x9 := [Num(b), Newline];
    var x8 := [Num(a), Space] + x9;
    var x7 := [Num(p.seed), Space] + x8;
    var x6 := [Num(p.amount), Space] + x7;
    var x5 := [Num(p.initial), Space] + x6;
    var x4 := [Num(p.receivers), Space] + x5;
    var x3 := [Num(p.senders), Space] + x4;
    var x2 := [Num(p.rounds), Space] + x3;
    var x1 := [Num(p.coins), Space] + x2;
    hide Nums;
    NumsLast(b);
    NumsPair(a, Space, x9);
    NumsPair(p.seed, Space, x8);
    NumsPair(p.amount, Space, x7);
    NumsPair(p.initial, Space, x6);
    NumsPair(p.receivers, Space, x5);
    NumsPair(p.senders, Space, x4);
    NumsPair(p.rounds, Space, x3);
    NumsPair(p.coins, Space, x2);
    NumsPair(p.wallets, Space, x1);
    assert HeaderText(p, a, b) == [Num(p.wallets), Space] + x1;
  }

  lemma HeaderRead(p: Params, a: nat, b: nat, tail: seq<nat>)
    requires FitsParams(p) && a < TWO_64 && b < TWO_64
    ensures ReadHeader(Nums(HeaderText(p, a, b)) + tail) == Some((Header(p, a, b), tail))
  {
    HeaderNums(p, a, b);
    var head := [p.wallets, p.coins, p.rounds, p.senders, p.receivers, p.initial, p.amount, p.seed, a, b];
    var ts := head + tail;
    assert forall i | 0 <= i < 10 :: ts[i] == head[i];
    assert ts[10..] == tail;
  }

  lemma WalletSection(wallets: map<nat, seq<Coin>>, count: nat, tail: seq<nat>)
    requires forall w | w in wallets :: FitsWallet(w, wallets[w]) && wallets[w] != []
    requires |Places(wallets)| == count
    ensures var rows := WalletRows(Sorted(wallets.Keys), wallets);
            ReadWallets(Nums(Flat(rows, RowText)) + tail, count, map[]) == Some((wallets, tail))
  {
    hide ReadWallets, Flat, Sorted, Places, FitsRow, FitsWallet, PushAll, Nums, WalletRows;
    var keys := Sorted(wallets.Keys);
    RowsFit(keys, wallets);
    WalletsRead(WalletRows(keys, wallets), tail, map[]);
    PushWallets(map[], keys, wallets);
    RowCount(keys, wallets);
    RestrictAll(wallets, keys);
    assert Restrict(wallets, keys) == wallets;
  }

  lemma {:induction false} RowsFit(keys: seq<nat>, wallets: map<nat, seq<Coin>>)
    requires forall w | w in keys :: w in wallets && FitsWallet(w, wallets[w])
    ensures forall r | r in WalletRows(keys, wallets) :: FitsRow(r)
  {
    hide FitsCoin;
    if keys != [] {
      RowsFit(keys[1..], wallets);
      var head := CoinRows(keys[0], wallets[keys[0]]);
      forall r | r in head ensures FitsRow(r) {
        var j :| 0 <= j < |head| && head[j] == r;
        assert r.coin == wallets[keys[0]][j];
      }
    }
  }

  lemma LedgerRowsFit(keys: seq<Key>, l: Ledger)
    requires forall k | k in keys :: k in l && k.0 < TWO_64 && FitsCoin(Coin(k.1, l[k]))
    ensures forall r | r in LedgerRows(keys, l) :: FitsRow(r)
  {
    hide FitsCoin;
    var rows := LedgerRows(keys, l);
    forall r | r in rows ensures FitsRow(r) {
      var i :| 0 <= i < |rows| && rows[i] == r;
      assert keys[i] in keys;
    }
  }

  lemma LedgerSection(l: Ledger, tail: seq<nat>)
    requires forall k | k in l :: k.0 < TWO_64 && FitsCoin(Coin(k.1, l[k]))
    ensures var rows := LedgerRows(SortedKeys(l.Keys), l);
            ReadLedger(Nums(Flat(rows, RowText)) + tail, |l|, map[]) == Some((l, tail))
  {
    hide ReadLedger, Flat, FitsRow, FitsCoin, PutAll, Nums;
    var keys := SortedKeys(l.Keys);
    LedgerRowsFit(keys, l);
    LedgerRead(LedgerRows(keys, l), tail, map[]);
    PutLedger(map[], keys, l);
    RestrictAll(l, keys);
    assert |keys| == |l.Keys|;
  }

  lemma RestrictAll<K, V>(m: map<K, V>, keys: seq<K>)
    requires forall k | k in m :: k in keys
    ensures map[] + Restrict(m, keys) == m
  {
  }

  lemma NumsFour(h: seq<Piece>, a: seq<Piece>, b: seq<Piece>, c: seq<Piece>)
    ensures Nums(h + a + b + c) == Nums(h) + (Nums(a) + (Nums(b) + Nums(c)))
  {
    hide Nums;
    NumsAppend(h + a + b, c);
    NumsAppend(h + a, b);
    NumsAppend(h, a);
    Regroup(Nums(h), Nums(a), Nums(b), Nums(c));
  }

  lemma Regroup(h: seq<nat>, a: seq<nat>, b: seq<nat>, c: seq<nat>)
    ensures h + a + b + c == h + (a + (b + c))
  {
  }

  lemma FileNums(f: Contents)
    ensures Nums(FilePieces(f)) ==
            Nums(HeaderText(f.p, |f.transfers|, |f.expected|))
            + (Nums(Flat(WalletRows(Sorted(f.wallets.Keys), f.wallets), RowText))
            + (Nums(Flat(f.transfers, TransferText))
            + Nums(Flat(LedgerRows(SortedKeys(f.expected.Keys), f.expected), RowText))))
  {
    hide Flat, Nums, HeaderText, WalletRows, LedgerRows, Sorted, SortedKeys;
    NumsFour(HeaderText(f.p, |f.transfers|, |f.expected|),
             Flat(WalletRows(Sorted(f.wallets.Keys), f.wallets), RowText),
             Flat(f.transfers, TransferText),
             Flat(LedgerRows(SortedKeys(f.expected.Keys), f.expected), RowText));
  }

  /** At the level of numbers, a file with the promised shape is read back completely. */
  lemma ShapedReadsBack(f: Contents)
    requires Fits(f) && Shaped(f)
    ensures ReadFile(Nums(FilePieces(f))) == Some((f, []))
  {
    hide Flat, Nums, HeaderText, WalletRows, LedgerRows, ReadHeader, ReadWallets, ReadTransfers, ReadLedger, FilePieces;
    hide FitsParams, FitsTransfer, FitsCoin, FitsWallet, Places, Sorted, SortedKeys;
    FileNums(f);
    var a := Nums(Flat(WalletRows(Sorted(f.wallets.Keys), f.wallets), RowText));
    var b := Nums(Flat(f.transfers, TransferText));
    var c := Nums(Flat(LedgerRows(SortedKeys(f.expected.Keys), f.expected), RowText));
    HeaderRead(f.p, |f.transfers|, |f.expected|, a + (b + c));
    WalletSection(f.wallets, f.p.wallets * f.p.coins, b + c);
    TransfersRead(f.p, f.transfers, c, []);
    assert [] + f.transfers == f.transfers;
    assert c + [] == c;
    LedgerSection(f.expected, []);
  }

  // ----- What is read has the promised shape

  lemma {:induction false} SharesCount(ts: seq<nat>, count: nat, acc: seq<Share>)
    requires ReadShares(ts, count, acc).Some?
    ensures |ReadShares(ts, count, acc).value.0| == |acc| + count
    decreases count
  {
    hide ReadShare;
    if count > 0 {
      var (e, rest) := ReadShare(ts).value;
      SharesCount(rest, count - 1, acc + [e]);
    }
  }

  predicate Sized(p: Params, t: Transfer) {
    |t.senders| == p.senders && |t.receivers| == p.receivers
  }

  lemma {:induction false} TransfersSized(p: Params, ts: seq<nat>, count: nat, acc: seq<Transfer>)
    requires ReadTransfers(p, ts, count, acc).Some? && forall t | t in acc :: Sized(p, t)
    ensures forall t | t in ReadTransfers(p, ts, count, acc).value.0 :: Sized(p, t)
    decreases count
  {
    if count > 0 {
      var (t, rest) := ReadTransfer(p, ts).value;
      OneSized(p, ts);
      TransfersSized(p, rest, count - 1, acc + [t]);
    }
  }

  lemma OneSized(p: Params, ts: seq<nat>)
    requires ReadTransfer(p, ts).Some?
    ensures Sized(p, ReadTransfer(p, ts).value.0)
  {
    hide ReadShares;
    var (senders, rest) := ReadShares(ts, p.senders, []).value;
    SharesCount(ts, p.senders, []);
    SharesCount(rest, p.receivers, []);
  }

  lemma {:induction false} WalletsShaped(ts: seq<nat>, count: nat, acc: map<nat, seq<Coin>>)
    requires ReadWallets(ts, count, acc).Some? && forall w | w in acc :: acc[w] != []
    ensures var m := ReadWallets(ts, count, acc).value.0;
            (forall w | w in m :: m[w] != []) && |Places(m)| == |Places(acc)| + count
    decreases count
  {
    hide ReadRow, Places;
    if count > 0 {
      var (r, rest) := ReadRow(ts).value;
      PlacesPush(acc, r);
      WalletsShaped(rest, count - 1, Push(acc, r));
    }
  }

  /** Whatever the file says, what is read from it has the shape that its first line announces. */
  lemma ReadsShaped(ts: seq<nat>)
    requires ReadFile(ts).Some?
    ensures Shaped(ReadFile(ts).value.0)
  {
    hide ReadHeader, ReadWallets, ReadTransfers, ReadLedger;
    var (h, ts1) := ReadHeader(ts).value;
    var (wallets, ts2) := ReadWallets(ts1, h.p.wallets * h.p.coins, map[]).value;
    WalletsShaped(ts1, h.p.wallets * h.p.coins, map[]);
    TransfersSized(h.p, ts2, h.transferCount, []);
    var transfers := ReadTransfers(h.p, ts2, h.transferCount, []).value.0;
    forall t | t in transfers ensures |t.senders| == h.p.senders && |t.receivers| == h.p.receivers {
      assert Sized(h.p, t);
    }
    assert Places(map[]) == {};
  }

  // ----- What is read fits

  lemma {:induction false} CoinsFit(ts: seq<nat>, count: nat, acc: seq<Coin>)
    requires ReadCoins(ts, count, acc).Some? && forall c | c in acc :: FitsCoin(c)
    ensures forall c | c in ReadCoins(ts, count, acc).value.0 :: FitsCoin(c)
    ensures |ReadCoins(ts, count, acc).value.0| == |acc| + count
    decreases count
  {
    if count > 0 {
      var (c, rest) := ReadCoin(ts).value;
      CoinsFit(rest, count - 1, acc + [c]);
    }
  }

  lemma ShareFits(ts: seq<nat>)
    requires ReadShare(ts).Some?
    ensures FitsShare(ReadShare(ts).value.0)
  {
    hide ReadCoins, FitsCoin;
    var (w, ts1) := Next(ts, TWO_64).value;
    var (count, ts2) := Next(ts1, TWO_64).value;
    CoinsFit(ts2, count, []);
  }

  lemma {:induction false} SharesFit(ts: seq<nat>, count: nat, acc: seq<Share>)
    requires ReadShares(ts, count, acc).Some? && forall e | e in acc :: FitsShare(e)
    ensures forall e | e in ReadShares(ts, count, acc).value.0 :: FitsShare(e)
    decreases count
  {
    hide ReadShare, FitsShare;
    if count > 0 {
      var (e, rest) := ReadShare(ts).value;
      ShareFits(ts);
      SharesFit(rest, count - 1, acc + [e]);
    }
  }

  lemma OneTransferFits(p: Params, ts: seq<nat>)
    requires ReadTransfer(p, ts).Some?
    ensures FitsTransfer(ReadTransfer(p, ts).value.0)
  {
    hide ReadShares, FitsShare;
    var (senders, rest) := ReadShares(ts, p.senders, []).value;
    SharesFit(ts, p.senders, []);
    SharesFit(rest, p.receivers, []);
  }

  lemma {:induction false} TransfersFit(p: Params, ts: seq<nat>, count: nat, acc: seq<Transfer>)
    requires ReadTransfers(p, ts, count, acc).Some? && forall t | t in acc :: FitsTransfer(t)
    ensures forall t | t in ReadTransfers(p, ts, count, acc).value.0 :: FitsTransfer(t)
    ensures |ReadTransfers(p, ts, count, acc).value.0| == |acc| + count
    decreases count
  {
    hide ReadTransfer, FitsTransfer;
    if count > 0 {
      var (t, rest) := ReadTransfer(p, ts).value;
      OneTransferFits(p, ts);
      TransfersFit(p, rest, count - 1, acc + [t]);
    }
  }

  lemma {:induction false} WalletsFit(ts: seq<nat>, count: nat, acc: map<nat, seq<Coin>>)
    requires ReadWallets(ts, count, acc).Some? && forall w | w in acc :: FitsWallet(w, acc[w])
    ensures var m := ReadWallets(ts, count, acc).value.0; forall w | w in m :: FitsWallet(w, m[w])
    decreases count
  {
    hide ReadRow, FitsWallet;
    if count > 0 {
      var (r, rest) := ReadRow(ts).value;
      PushFits(ts, acc);
      WalletsFit(rest, count - 1, Push(acc, r));
    }
  }

  lemma PushFits(ts: seq<nat>, acc: map<nat, seq<Coin>>)
    requires ReadRow(ts).Some? && forall w | w in acc :: FitsWallet(w, acc[w])
    ensures var m := Push(acc, ReadRow(ts).value.0); forall w | w in m :: FitsWallet(w, m[w])
  {
  }

  /** A ledger of `count` keys or less, all in range. */
  predicate FitsLedger(l: Ledger, count: nat) {
    |l| <= count && forall k | k in l :: k.0 < TWO_64 && FitsCoin(Coin(k.1, l[k]))
  }

  lemma {:induction false} LedgerFits(ts: seq<nat>, count: nat, acc: Ledger, done: nat)
    requires ReadLedger(ts, count, acc).Some? && FitsLedger(acc, done)
    ensures FitsLedger(ReadLedger(ts, count, acc).value.0, done + count)
    decreases count
  {
    hide ReadRow, FitsLedger;
    if count > 0 {
      var (r, rest) := ReadRow(ts).value;
      PutFits(ts, acc, done);
      LedgerFits(rest, count - 1, acc[(r.wallet, r.coin.id) := r.coin.value], done + 1);
    }
  }

  lemma PutFits(ts: seq<nat>, acc: Ledger, done: nat)
    requires ReadRow(ts).Some? && FitsLedger(acc, done)
    ensures var r := ReadRow(ts).value.0; FitsLedger(acc[(r.wallet, r.coin.id) := r.coin.value], done + 1)
  {
    var r := ReadRow(ts).value.0;
    var k: Key := (r.wallet, r.coin.id);
    assert acc[k := r.coin.value].Keys == acc.Keys + {k};
  }

  lemma HeaderFits(ts: seq<nat>)
    requires ReadHeader(ts).Some?
    ensures var h := ReadHeader(ts).value.0;
            FitsParams(h.p) && h.transferCount < TWO_64 && h.expectedCount < TWO_64
  {
    var limits := WIDTHS;
    assert limits[0] == limits[1] == limits[2] == limits[3] == limits[4] == TWO_64;
    assert limits[5] == limits[6] == TWO_32 && limits[7] == limits[8] == limits[9] == TWO_64;
    assert forall i | 0 <= i < 10 :: ts[i] < WIDTHS[i];
  }

  /** Whatever the file says, what is read from it fits its fields. */
  lemma ReadsFit(ts: seq<nat>)
    requires ReadFile(ts).Some?
    ensures Fits(ReadFile(ts).value.0)
  {
    hide ReadHeader, ReadWallets, ReadTransfers, ReadLedger, FitsParams, FitsWallet, FitsTransfer, FitsCoin;
    var (h, ts1) := ReadHeader(ts).value;
    var (wallets, ts2) := ReadWallets(ts1, h.p.wallets * h.p.coins, map[]).value;
    var (transfers, ts3) := ReadTransfers(h.p, ts2, h.transferCount, []).value;
    HeaderFits(ts);
    WalletsFit(ts1, h.p.wallets * h.p.coins, map[]);
    TransfersFit(h.p, ts2, h.transferCount, []);
    LedgerFits(ts3, h.expectedCount, map[], 0);
  }

  // ----- Characters

  lemma RowsSeparated(r: Row)
    ensures Separated(RowText(r))
  {
  }

  lemma ShareSeparated(e: Share)
    ensures Separated(ShareText(e))
  {
    FlatSeparated(e.coins, CoinText);
    SeparatedAppend([Num(e.wallet), Space, Num(|e.coins|), Space], Flat(e.coins, CoinText));
  }

  lemma TransferSeparated(t: Transfer)
    ensures Separated(TransferText(t))
  {
    hide Flat, ShareText, Separated;
    forall e: Share ensures Separated(ShareText(e)) {
      ShareSeparated(e);
    }
    FlatSeparated(t.senders, ShareText);
    FlatSeparated(t.receivers, ShareText);
    SeparatedAppend(Flat(t.senders, ShareText), Flat(t.receivers, ShareText));
    OnlyNewline();
    SeparatedAppend(Flat(t.senders, ShareText) + Flat(t.receivers, ShareText), [Newline]);
  }

  lemma OnlyNewline()
    ensures Separated([Newline])
  {
  }

  lemma HeaderSeparated(p: Params, a: nat, b: nat)
    ensures Separated(HeaderText(p, a, b))
  {
  }

  lemma FileSeparated(f: Contents)
    ensures Separated(FilePieces(f))
  {
    hide Flat, Separated, HeaderText, RowText, TransferText, WalletRows, LedgerRows;
    var h, a := HeaderText(f.p, |f.transfers|, |f.expected|), Flat(WalletRows(Sorted(f.wallets.Keys), f.wallets), RowText);
    var b, c := Flat(f.transfers, TransferText), Flat(LedgerRows(SortedKeys(f.expected.Keys), f.expected), RowText);
    forall r: Row ensures Separated(RowText(r)) {
      RowsSeparated(r);
    }
    forall t: Transfer ensures Separated(TransferText(t)) {
      TransferSeparated(t);
    }
    HeaderSeparated(f.p, |f.transfers|, |f.expected|);
    FlatSeparated(WalletRows(Sorted(f.wallets.Keys), f.wallets), RowText);
    FlatSeparated(f.transfers, TransferText);
    FlatSeparated(LedgerRows(SortedKeys(f.expected.Keys), f.expected), RowText);
    SeparatedAppend(h, a);
    SeparatedAppend(h + a, b);
    SeparatedAppend(h + a + b, c);
  }

  /**
   Exactly when a workload survives a file: the text printed for it, read character by character, gives back
   all of it and leaves no number unread if and only if it has the shape that its parameters announce.
   */
  lemma FileRoundTrip(f: Contents)
    requires Fits(f)
    ensures ReadFile(Tokens(FileText(f))) == Some((f, [])) <==> Shaped(f)
  {
    hide ReadFile, Shaped, Fits, FilePieces, Render, Tokens;
    FileSeparated(f);
    TokensOfRender(FilePieces(f));
    if Shaped(f) {
      ShapedReadsBack(f);
    }
    if ReadFile(Tokens(FileText(f))) == Some((f, [])) {
      ReadsShaped(Tokens(FileText(f)));
    }
  }

  /**
   Every workload that has been loaded survives being saved again: it is printed as it was read, and reading that
   text gives it back with nothing left over.
   */
  lemma LoadedFileRoundTrip(ts: seq<nat>)
    requires ReadFile(ts).Some?
    ensures var f := ReadFile(ts).value.0; ReadFile(Tokens(FileText(f))) == Some((f, []))
  {
    hide ReadFile, Shaped, Fits, FileText, Tokens;
    ReadsShaped(ts);
    ReadsFit(ts);
    FileRoundTrip(ReadFile(ts).value.0);
  }
}
