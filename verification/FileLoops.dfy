/** The loops that write and read the sections of a workload file. */
module FileLoops {
  import opened Common
  import opened Workload
  import opened Text
  import opened FileFormat

  // ----- Writing

  lemma RenderTwo(n: nat, sep: Piece, rest: seq<Piece>)
    ensures Render([Num(n), sep] + rest) == Decimal(n) + RenderOne(sep) + Render(rest)
  {
    var xs := [Num(n), sep] + rest;
    assert xs[1..] == [sep] + rest && xs[1..][1..] == rest;
  }

  lemma RenderCoin(c: Coin)
    ensures Render(CoinText(c)) == Decimal(c.id) + " " + Decimal(c.value) + " "
  {
    var last := [Num(c.value), Space];
    RenderTwo(c.value, Space, []);
    RenderTwo(c.id, Space, last);
    assert last + [] == last && CoinText(c) == [Num(c.id), Space] + last;
  }

  lemma RenderRow(r: Row)
    ensures Render(RowText(r)) ==
            Decimal(r.wallet) + " " + Decimal(r.coin.id) + " " + Decimal(r.coin.value) + "\n"
  {
    hide Decimal;
    var last := [Num(r.coin.value), Newline];
    var tail := [Num(r.coin.id), Space] + last;
    RenderTwo(r.coin.value, Newline, []);
    RenderTwo(r.coin.id, Space, last);
    RenderTwo(r.wallet, Space, tail);
    assert last + [] == last && RowText(r) == [Num(r.wallet), Space] + tail;
  }

  lemma RenderShareHead(e: Share)
    ensures Render(ShareText(e)) ==
            Decimal(e.wallet) + " " + Decimal(|e.coins|) + " " + Render(Flat(e.coins, CoinText))
  {
    hide Decimal;
    var coins := Flat(e.coins, CoinText);
    RenderTwo(|e.coins|, Space, coins);
    RenderTwo(e.wallet, Space, [Num(|e.coins|), Space] + coins);
    assert ShareText(e) == [Num(e.wallet), Space] + ([Num(|e.coins|), Space] + coins);
  }

  lemma RenderNothing<T>(f: T -> seq<Piece>)
    ensures Render(Flat([], f)) == ""
  {
  }

  method ShareLines(es: seq<Share>) returns (text: string)
    ensures text == Render(Flat(es, ShareText))
  {
    hide Flat, Render, ShareText, CoinText, Decimal;
    text := "";
    RenderNothing(ShareText);
    for a := 0 to |es|
      invariant text == Render(Flat(es[..a], ShareText))
    {
      var e := es[a];
      var line := Decimal(e.wallet) + " " + Decimal(|e.coins|) + " ";
      ghost var head := line;
      RenderNothing(CoinText);
      for b := 0 to |e.coins|
        invariant line == head + Render(Flat(e.coins[..b], CoinText))
      {
        FlatOne(e.coins, b, CoinText);
        RenderCoin(e.coins[b]);
        line := line + Decimal(e.coins[b].id) + " " + Decimal(e.coins[b].value) + " ";
      }
      assert e.coins[..|e.coins|] == e.coins;
      RenderShareHead(e);
      FlatOne(es, a, ShareText);
      text := text + line;
    }
    assert es[..|es|] == es;
  }

  lemma RenderTransfer(t: Transfer)
    ensures Render(TransferText(t)) == Render(Flat(t.senders, ShareText)) + Render(Flat(t.receivers, ShareText)) + "\n"
  {
    hide Flat, ShareText;
    RenderAppend(Flat(t.senders, ShareText) + Flat(t.receivers, ShareText), [Newline]);
    RenderAppend(Flat(t.senders, ShareText), Flat(t.receivers, ShareText));
    assert [Newline][1..] == [];
  }

  method TransferLines(ts: seq<Transfer>) returns (text: string)
    ensures text == Render(Flat(ts, TransferText))
  {
    hide Flat, Render, TransferText;
    text := "";
    RenderNothing(TransferText);
    for a := 0 to |ts|
      invariant text == Render(Flat(ts[..a], TransferText))
    {
      var senders := ShareLines(ts[a].senders);
      var receivers := ShareLines(ts[a].receivers);
      RenderTransfer(ts[a]);
      FlatOne(ts, a, TransferText);
      text := text + senders + receivers + "\n";
    }
    assert ts[..|ts|] == ts;
  }

  lemma {:induction false} WalletRowsOne(keys: seq<nat>, a: nat, wallets: map<nat, seq<Coin>>)
    requires a < |keys| && forall w | w in keys :: w in wallets
    ensures WalletRows(keys[..a + 1], wallets) == WalletRows(keys[..a], wallets) + CoinRows(keys[a], wallets[keys[a]])
  {
    if a == 0 {
      assert keys[..1] == [keys[0]] && keys[..1][1..] == [] && keys[..0] == [];
    } else {
      WalletRowsOne(keys[1..], a - 1, wallets);
      assert keys[..a + 1][1..] == keys[1..][..a] && keys[..a][1..] == keys[1..][..a - 1];
    }
  }

  lemma RowsOne(rows: seq<Row>, w: nat, coins: seq<Coin>, b: nat)
    requires b < |coins|
    ensures Render(Flat(rows + CoinRows(w, coins)[..b + 1], RowText))
         == Render(Flat(rows + CoinRows(w, coins)[..b], RowText))
            + (Decimal(w) + " " + Decimal(coins[b].id) + " " + Decimal(coins[b].value) + "\n")
  {
    hide Decimal, Flat, RowText;
    var xs := rows + CoinRows(w, coins);
    var i := |rows| + b;
    assert xs[..i] == rows + CoinRows(w, coins)[..b] && xs[..i + 1] == rows + CoinRows(w, coins)[..b + 1];
    FlatOne(xs, i, RowText);
    RenderRow(xs[i]);
  }

  method WalletLines(wallets: map<nat, seq<Coin>>) returns (text: string)
    ensures text == Render(Flat(WalletRows(Sorted(wallets.Keys), wallets), RowText))
  {
    hide Flat, Render, RowText, Decimal, WalletRows;
    var keys := Sorted(wallets.Keys);
    text := "";
    RenderNothing(RowText);
    NoRows(wallets);
    for a := 0 to |keys|
      invariant text == Render(Flat(WalletRows(keys[..a], wallets), RowText))
    {
      var w := keys[a];
      assert w in keys;
      var coins := wallets[w];
      ghost var rows := WalletRows(keys[..a], wallets);
      WalletRowsOne(keys, a, wallets);
      assert rows + CoinRows(w, coins)[..0] == rows;
      for b := 0 to |coins|
        invariant text == Render(Flat(rows + CoinRows(w, coins)[..b], RowText))
      {
        RowsOne(rows, w, coins, b);
        text := text + (Decimal(w) + " " + Decimal(coins[b].id) + " " + Decimal(coins[b].value) + "\n");
      }
      assert CoinRows(w, coins)[..|coins|] == CoinRows(w, coins);
    }
    assert keys[..|keys|] == keys;
  }

  lemma NoRows(wallets: map<nat, seq<Coin>>)
    ensures WalletRows([], wallets) == []
  {
  }

  method LedgerLines(l: Ledger) returns (text: string)
    ensures text == Render(Flat(LedgerRows(SortedKeys(l.Keys), l), RowText))
  {
    hide Flat, Render, RowText, Decimal;
    var keys := SortedKeys(l.Keys);
    ghost var rows := LedgerRows(keys, l);
    text := "";
    RenderNothing(RowText);
    for a := 0 to |keys|
      invariant text == Render(Flat(rows[..a], RowText))
    {
      var k := keys[a];
      assert k in keys;
      FlatOne(rows, a, RowText);
      RenderRow(rows[a]);
      text := text + (Decimal(k.0) + " " + Decimal(k.1) + " " + Decimal(l[k]) + "\n");
    }
    assert rows[..|keys|] == rows;
  }

  lemma RenderHeader(p: Params, a: nat, b: nat)
    ensures Render(HeaderText(p, a, b)) ==
            Decimal(p.wallets) + " " + (Decimal(p.coins) + " " + (Decimal(p.rounds) + " " + (Decimal(p.senders) + " "
            + (Decimal(p.receivers) + " " + (Decimal(p.initial) + " " + (Decimal(p.amount) + " "
            + (Decimal(p.seed) + " " + (Decimal(a) + " " + (Decimal(b) + "\n")))))))))
  {
    hide Decimal, Render;
    var x9 := [Num(b), Newline];
    var x8 := [Num(a), Space] + x9;
    var x7 := [Num(p.seed), Space] + x8;
    var x6 := [Num(p.amount), Space] + x7;
    var x5 := [Num(p.initial), Space] + x6;
    var x4 := [Num(p.receivers), Space] + x5;
    var x3 := [Num(p.senders), Space] + x4;
    var x2 := [Num(p.rounds), Space] + x3;
    var x1 := [Num(p.coins), Space] + x2;
    RenderLast(b);
    RenderTwo(a, Space, x9);
    RenderTwo(p.seed, Space, x8);
    RenderTwo(p.amount, Space, x7);
    RenderTwo(p.initial, Space, x6);
    RenderTwo(p.receivers, Space, x5);
    RenderTwo(p.senders, Space, x4);
    RenderTwo(p.rounds, Space, x3);
    RenderTwo(p.coins, Space, x2);
    RenderTwo(p.wallets, Space, x1);
    assert HeaderText(p, a, b) == [Num(p.wallets), Space] + x1;
  }

  lemma RenderLast(n: nat)
    ensures Render([Num(n), Newline]) == Decimal(n) + "\n"
  {
    RenderTwo(n, Newline, []);
    assert [Num(n), Newline] + [] == [Num(n), Newline];
  }

  method HeaderLine(p: Params, transferCount: nat, expectedCount: nat) returns (text: string)
    ensures text == Render(HeaderText(p, transferCount, expectedCount))
  {
    hide HeaderText, Render, Decimal;
    RenderHeader(p, transferCount, expectedCount);
    text :=
      Decimal(p.wallets) + " " + (Decimal(p.coins) + " " + (Decimal(p.rounds) + " " + (Decimal(p.senders) + " "
      + (Decimal(p.receivers) + " " + (Decimal(p.initial) + " " + (Decimal(p.amount) + " "
      + (Decimal(p.seed) + " " + (Decimal(transferCount) + " " + (Decimal(expectedCount) + "\n")))))))));
  }

  lemma FileParts(f: Contents)
    ensures FileText(f) ==
            Render(HeaderText(f.p, |f.transfers|, |f.expected|))
            + Render(Flat(WalletRows(Sorted(f.wallets.Keys), f.wallets), RowText))
            + Render(Flat(f.transfers, TransferText))
            + Render(Flat(LedgerRows(SortedKeys(f.expected.Keys), f.expected), RowText))
  {
    hide Flat, Render, HeaderText, WalletRows, LedgerRows;
    var h, a := HeaderText(f.p, |f.transfers|, |f.expected|), Flat(WalletRows(Sorted(f.wallets.Keys), f.wallets), RowText);
    var b, c := Flat(f.transfers, TransferText), Flat(LedgerRows(SortedKeys(f.expected.Keys), f.expected), RowText);
    RenderAppend(h + a + b, c);
    RenderAppend(h + a, b);
    RenderAppend(h, a);
  }

  // ----- Reading

  /** `fin >> x`, for a field that holds values below `limit`. */
  method Extract(text: string, limit: nat) returns (ok: bool, n: nat, rest: string)
    ensures match Next(Tokens(text), limit)
            case None => !ok
            case Some((m, ts)) => ok && n == m && Tokens(rest) == ts
  {
    n, rest := 0, text;
    match ReadNumber(text) {
      case None => ok := false;
      case Some((m, after)) =>
        ok, n, rest := m < limit, m, after;
        assert Tokens(text)[1..] == Tokens(after);
    }
  }

  method ExtractCoin(text: string) returns (ok: bool, c: Coin, rest: string)
    ensures match ReadCoin(Tokens(text))
            case None => !ok
            case Some((d, ts)) => ok && c == d && Tokens(rest) == ts
  {
    hide Tokens;
    c := Coin(0, 0);
    var id, value;
    ok, id, rest := Extract(text, TWO_64);
    if ok {
      ok, value, rest := Extract(rest, TWO_32);
      c := Coin(id, value);
    }
  }

  method ExtractRow(text: string) returns (ok: bool, r: Row, rest: string)
    ensures match ReadRow(Tokens(text))
            case None => !ok
            case Some((d, ts)) => ok && r == d && Tokens(rest) == ts
  {
    hide Tokens, ReadCoin;
    r := Row(0, Coin(0, 0));
    var w, c;
    ok, w, rest := Extract(text, TWO_64);
    if ok {
      ok, c, rest := ExtractCoin(rest);
      r := Row(w, c);
    }
  }

  method ExtractShares(text: string, count: nat) returns (ok: bool, es: seq<Share>, rest: string)
    ensures match ReadShares(Tokens(text), count, [])
            case None => !ok
            case Some((ds, ts)) => ok && es == ds && Tokens(rest) == ts
  {
    hide Tokens, ReadCoin, ReadCoins, Next;
    ok, es, rest := true, [], text;
    for j := 0 to count
      invariant ok
      invariant ReadShares(Tokens(text), count, []) == ReadShares(Tokens(rest), count - j, es)
    {
      var e;
      ok, e, rest := ExtractShare(rest);
      if !ok {
        return;
      }
      es := es + [e];
    }
  }

  method ExtractShare(text: string) returns (ok: bool, e: Share, rest: string)
    ensures match ReadShare(Tokens(text))
            case None => !ok
            case Some((d, ts)) => ok && e == d && Tokens(rest) == ts
  {
    hide Tokens, ReadCoin;
    e := Share(0, []);
    var w, count, coins: seq<Coin>;
    ok, w, rest := Extract(text, TWO_64);
    if !ok {
      return;
    }
    ok, count, rest := Extract(rest, TWO_64);
    if !ok {
      return;
    }
    coins := [];
    ghost var start := Tokens(rest);
    for k := 0 to count
      invariant ok
      invariant ReadCoins(start, count, []) == ReadCoins(Tokens(rest), count - k, coins)
    {
      var c;
      ok, c, rest := ExtractCoin(rest);
      if !ok {
        return;
      }
      coins := coins + [c];
    }
    e := Share(w, coins);
  }

  method ExtractTransfers(text: string, p: Params, count: nat) returns (ok: bool, ts: seq<Transfer>, rest: string)
    ensures match ReadTransfers(p, Tokens(text), count, [])
            case None => !ok
            case Some((ds, left)) => ok && ts == ds && Tokens(rest) == left
  {
    hide Tokens, ReadShares;
    ok, ts, rest := true, [], text;
    for i := 0 to count
      invariant ok
      invariant ReadTransfers(p, Tokens(text), count, []) == ReadTransfers(p, Tokens(rest), count - i, ts)
    {
      var senders, receivers;
      ok, senders, rest := ExtractShares(rest, p.senders);
      if !ok {
        return;
      }
      ok, receivers, rest := ExtractShares(rest, p.receivers);
      if !ok {
        return;
      }
      ts := ts + [Transfer(senders, receivers)];
    }
  }

  method ExtractWallets(text: string, p: Params) returns (ok: bool, wallets: map<nat, seq<Coin>>, rest: string)
    ensures match ReadWallets(Tokens(text), p.wallets * p.coins, map[])
            case None => !ok
            case Some((ms, left)) => ok && wallets == ms && Tokens(rest) == left
  {
    hide Tokens, ReadRow, RowsLeft;
    NoRowsLeft(p);
    ok, wallets, rest := true, map[], text;
    ghost var total := p.wallets * p.coins;
    ghost var left := total;
    for i := 0 to p.wallets
      invariant ok && left == RowsLeft(p, i)
      invariant ReadWallets(Tokens(text), total, map[]) == ReadWallets(Tokens(rest), left, wallets)
    {
      RowsOfWallet(p, i);
      for j := 0 to p.coins
        invariant ok && left == RowsLeft(p, i + 1) + (p.coins - j)
        invariant ReadWallets(Tokens(text), total, map[]) == ReadWallets(Tokens(rest), left, wallets)
      {
        var r;
        ok, r, rest := ExtractRow(rest);
        if !ok {
          return;
        }
        wallets := wallets[r.wallet := (if r.wallet in wallets then wallets[r.wallet] else []) + [r.coin]];
        left := left - 1;
      }
    }
  }

  function RowsLeft(p: Params, i: nat): nat {
    if i <= p.wallets then (p.wallets - i) * p.coins else 0
  }

  lemma RowsOfWallet(p: Params, i: nat)
    requires i < p.wallets
    ensures RowsLeft(p, i) == RowsLeft(p, i + 1) + p.coins
  {
  }

  lemma NoRowsLeft(p: Params)
    ensures RowsLeft(p, 0) == p.wallets * p.coins && RowsLeft(p, p.wallets) == 0
  {
  }

  method ExtractLedger(text: string, count: nat) returns (ok: bool, l: Ledger, rest: string)
    ensures match ReadLedger(Tokens(text), count, map[])
            case None => !ok
            case Some((m, left)) => ok && l == m && Tokens(rest) == left
  {
    hide Tokens, ReadRow;
    ok, l, rest := true, map[], text;
    for i := 0 to count
      invariant ok
      invariant ReadLedger(Tokens(text), count, map[]) == ReadLedger(Tokens(rest), count - i, l)
    {
      var r;
      ok, r, rest := ExtractRow(rest);
      if !ok {
        return;
      }
      l := l[(r.wallet, r.coin.id) := r.coin.value];
    }
  }

  method ExtractHeader(text: string) returns (ok: bool, h: Header, rest: string)
    ensures match ReadHeader(Tokens(text))
            case None => !ok
            case Some((d, ts)) => ok && h == d && Tokens(rest) == ts
  {
    hide Tokens;
    h := Header(Params(0, 0, 0, 0, 0, 0, 0, 0), 0, 0);
    ok, rest := true, text;
    ghost var ts := Tokens(text);
    var v: seq<nat> := [];
    for i := 0 to 10
      invariant ok && |v| == i && i <= |ts| && Tokens(rest) == ts[i..] && v == ts[..i]
      invariant forall j | 0 <= j < i :: ts[j] < WIDTHS[j]
    {
      var n;
      ok, n, rest := Extract(rest, WIDTHS[i]);
      if !ok {
        return;
      }
      v := v + [n];
    }
    h := Header(Params(v[0], v[1], v[2], v[3], v[4], v[5], v[6], v[7]), v[8], v[9]);
  }
}
