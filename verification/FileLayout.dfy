/**
 The layout of a workload file, line by line and to the letter, and what reading makes of rows that no workload
 would print: repeated positions, and wallets whose rows are not together.
 */
module FileLayout {
  import opened Common
  import opened Workload
  import opened Text
  import opened FileFormat
  import opened FileLoops
  import opened RoundTrip

  // ----- Lines

  /** Lines with an end of line behind each. */
  function Unlines(ls: seq<string>): string {
    if ls == [] then "" else ls[0] + "\n" + Unlines(ls[1..])
  }

  lemma {:induction false} UnlinesAppend(xs: seq<string>, ys: seq<string>)
    ensures Unlines(xs + ys) == Unlines(xs) + Unlines(ys)
  {
    if xs == [] {
      assert xs + ys == ys;
    } else {
      UnlinesAppend(xs[1..], ys);
      HeadOfConcat(xs, ys);
      Assoc(xs[0] + "\n", Unlines(xs[1..]), Unlines(ys));
    }
  }

  /** Numbers with single blanks between them. */
  function Words(ns: seq<nat>): string {
    if ns == [] then "" else if |ns| == 1 then Decimal(ns[0]) else Decimal(ns[0]) + " " + Words(ns[1..])
  }

  /** Numbers with a blank behind each. */
  function Blanked(ns: seq<nat>): string {
    if ns == [] then "" else Decimal(ns[0]) + " " + Blanked(ns[1..])
  }

  lemma {:induction false} BlankedAppend(xs: seq<nat>, ys: seq<nat>)
    ensures Blanked(xs + ys) == Blanked(xs) + Blanked(ys)
  {
    hide Decimal;
    if xs == [] {
      assert xs + ys == ys;
    } else {
      BlankedAppend(xs[1..], ys);
      HeadOfConcat(xs, ys);
      Assoc(Decimal(xs[0]) + " ", Blanked(xs[1..]), Blanked(ys));
    }
  }

  lemma {:induction false} OneLine(ns: seq<nat>)
    ensures '\n' !in Words(ns) && '\n' !in Blanked(ns)
  {
    hide Decimal;
    if ns != [] {
      DecimalPlain(ns[0]);
      OneLine(ns[1..]);
    }
  }

  lemma DecimalPlain(n: nat)
    ensures '\n' !in Decimal(n)
  {
  }

  // ----- The numbers of a transfer

  function CoinNumbers(coins: seq<Coin>): seq<nat> {
    if coins == [] then [] else [coins[0].id, coins[0].value] + CoinNumbers(coins[1..])
  }

  function ShareNumbers(es: seq<Share>): seq<nat> {
    if es == [] then [] else [es[0].wallet, |es[0].coins|] + CoinNumbers(es[0].coins) + ShareNumbers(es[1..])
  }

  lemma BlankedPair(a: nat, b: nat, ns: seq<nat>)
    ensures Blanked([a, b] + ns) == Decimal(a) + " " + Decimal(b) + " " + Blanked(ns)
  {
    hide Decimal;
    var xs := [a, b] + ns;
    assert xs[1..] == [b] + ns && xs[1..][1..] == ns;
  }

  lemma {:induction false} CoinsLaidOut(coins: seq<Coin>)
    ensures Render(Flat(coins, CoinText)) == Blanked(CoinNumbers(coins))
  {
    hide Decimal, CoinText, Render, Blanked;
    if coins == [] {
      RenderNothing(CoinText);
      NothingBlanked();
    } else {
      CoinsLaidOut(coins[1..]);
      RenderAppend(CoinText(coins[0]), Flat(coins[1..], CoinText));
      RenderCoin(coins[0]);
      BlankedPair(coins[0].id, coins[0].value, CoinNumbers(coins[1..]));
    }
  }

  lemma NothingBlanked()
    ensures Blanked([]) == ""
  {
  }

  lemma {:induction false} SharesLaidOut(es: seq<Share>)
    ensures Render(Flat(es, ShareText)) == Blanked(ShareNumbers(es))
  {
    hide Decimal, ShareText, Render, Blanked, CoinNumbers;
    if es == [] {
      RenderNothing(ShareText);
      NothingBlanked();
    } else {
      var e := es[0];
      SharesLaidOut(es[1..]);
      RenderAppend(ShareText(e), Flat(es[1..], ShareText));
      RenderShareHead(e);
      CoinsLaidOut(e.coins);
      BlankedPair(e.wallet, |e.coins|, CoinNumbers(e.coins));
      BlankedAppend([e.wallet, |e.coins|] + CoinNumbers(e.coins), ShareNumbers(es[1..]));
    }
  }

  // ----- Lines of the sections

  function RowLine(r: Row): string {
    Words([r.wallet, r.coin.id, r.coin.value])
  }

  function TransferLine(t: Transfer): string {
    Blanked(ShareNumbers(t.senders) + ShareNumbers(t.receivers))
  }

  function HeaderNumbers(p: Params, a: nat, b: nat): seq<nat> {
    [p.wallets, p.coins, p.rounds, p.senders, p.receivers, p.initial, p.amount, p.seed, a, b]
  }

  lemma WordsNext(n: nat, ns: seq<nat>)
    requires ns != []
    ensures Words([n] + ns) == Decimal(n) + " " + Words(ns)
  {
    hide Decimal;
    assert ([n] + ns)[1..] == ns;
  }

  lemma WordsOne(n: nat)
    ensures Words([n]) == Decimal(n)
  {
  }

  lemma RowLaidOut(r: Row)
    ensures Render(RowText(r)) == RowLine(r) + "\n"
  {
    hide Decimal, Words, RowText, Render;
    var (w, id, v) := (r.wallet, r.coin.id, r.coin.value);
    RenderRow(r);
    WordsOne(v);
    WordsNext(id, [v]);
    WordsNext(w, [id, v]);
    assert [id] + [v] == [id, v] && [w] + [id, v] == [w, id, v];
  }

  lemma TransferLaidOut(t: Transfer)
    ensures Render(TransferText(t)) == TransferLine(t) + "\n"
  {
    hide Blanked, TransferText, Render, Flat, ShareNumbers;
    RenderTransfer(t);
    SharesLaidOut(t.senders);
    SharesLaidOut(t.receivers);
    BlankedAppend(ShareNumbers(t.senders), ShareNumbers(t.receivers));
  }

  lemma HeaderLaidOut(p: Params, a: nat, b: nat)
    ensures Render(HeaderText(p, a, b)) == Words(HeaderNumbers(p, a, b)) + "\n"
  {
    hide Decimal, Words, HeaderText, Render;
    RenderHeader(p, a, b);
    var x9 := [b];
    var x8 := [a] + x9;
    var x7 := [p.seed] + x8;
    var x6 := [p.amount] + x7;
    var x5 := [p.initial] + x6;
    var x4 := [p.receivers] + x5;
    var x3 := [p.senders] + x4;
    var x2 := [p.rounds] + x3;
    var x1 := [p.coins] + x2;
    WordsOne(b);
    WordsNext(a, x9);
    WordsNext(p.seed, x8);
    WordsNext(p.amount, x7);
    WordsNext(p.initial, x6);
    WordsNext(p.receivers, x5);
    WordsNext(p.senders, x4);
    WordsNext(p.rounds, x3);
    WordsNext(p.coins, x2);
    WordsNext(p.wallets, x1);
    assert HeaderNumbers(p, a, b) == [p.wallets] + x1;
  }

  function Each<T>(xs: seq<T>, f: T -> string): seq<string> {
    seq(|xs|, i requires 0 <= i < |xs| => f(xs[i]))
  }

  lemma {:induction false} SectionLaidOut<T>(xs: seq<T>, text: T -> seq<Piece>, line: T -> string)
    requires forall x | x in xs :: Render(text(x)) == line(x) + "\n"
    ensures Render(Flat(xs, text)) == Unlines(Each(xs, line))
  {
    hide Render;
    if xs == [] {
      RenderNothing(text);
    } else {
      SectionLaidOut(xs[1..], text, line);
      RenderAppend(text(xs[0]), Flat(xs[1..], text));
      assert Each(xs, line)[1..] == Each(xs[1..], line);
    }
  }

  /** The lines of a file. */
  function FileLines(f: Contents): seq<string> {
    [Words(HeaderNumbers(f.p, |f.transfers|, |f.expected|))]
    + Each(WalletRows(Sorted(f.wallets.Keys), f.wallets), RowLine)
    + Each(f.transfers, TransferLine)
    + Each(LedgerRows(SortedKeys(f.expected.Keys), f.expected), RowLine)
  }

  lemma TextIsLines(f: Contents)
    ensures FileText(f) == Unlines(FileLines(f))
  {
    hide Render, Flat, Words, Each, WalletRows, LedgerRows, Sorted, SortedKeys, RowText, TransferText, HeaderText;
    hide TransferLine, RowLine, FileText, Unlines, HeaderNumbers;
    var rows, last := WalletRows(Sorted(f.wallets.Keys), f.wallets), LedgerRows(SortedKeys(f.expected.Keys), f.expected);
    var head := Words(HeaderNumbers(f.p, |f.transfers|, |f.expected|));
    FileParts(f);
    HeaderLaidOut(f.p, |f.transfers|, |f.expected|);
    forall r: Row ensures Render(RowText(r)) == RowLine(r) + "\n" {
      RowLaidOut(r);
    }
    forall t: Transfer ensures Render(TransferText(t)) == TransferLine(t) + "\n" {
      TransferLaidOut(t);
    }
    SectionLaidOut(rows, RowText, RowLine);
    SectionLaidOut(f.transfers, TransferText, TransferLine);
    SectionLaidOut(last, RowText, RowLine);
    UnlinesOne(head);
    UnlinesAppend([head] + Each(rows, RowLine) + Each(f.transfers, TransferLine), Each(last, RowLine));
    UnlinesAppend([head] + Each(rows, RowLine), Each(f.transfers, TransferLine));
    UnlinesAppend([head], Each(rows, RowLine));
  }

  lemma UnlinesOne(l: string)
    ensures Unlines([l]) == l + "\n"
  {
    assert [l][1..] == [];
  }

  // ----- Which coin is on which line

  /** The places of the coins of these wallets, in order. */
  function PlaceList(keys: seq<nat>, wallets: map<nat, seq<Coin>>): seq<(nat, nat)>
    requires forall w | w in keys :: w in wallets
  {
    if keys == [] then []
    else seq(|wallets[keys[0]]|, (j: nat) => (keys[0], j)) + PlaceList(keys[1..], wallets)
  }

  ghost predicate Ascending(ps: seq<(nat, nat)>) {
    forall i, j | 0 <= i < j < |ps| :: KeyLess(ps[i], ps[j])
  }

  lemma {:induction false} PlacesListed(keys: seq<nat>, wallets: map<nat, seq<Coin>>)
    requires forall w | w in keys :: w in wallets
    requires forall i, j | 0 <= i < j < |keys| :: keys[i] < keys[j]
    ensures var ps, rows := PlaceList(keys, wallets), WalletRows(keys, wallets);
            && |ps| == |rows| && Ascending(ps)
            && forall i | 0 <= i < |ps| ::
                 && ps[i].0 in keys && ps[i].1 < |wallets[ps[i].0]|
                 && rows[i] == Row(ps[i].0, wallets[ps[i].0][ps[i].1])
  {
    if keys != [] {
      var ps := PlaceList(keys[1..], wallets);
      PlacesListed(keys[1..], wallets);
      var head := seq(|wallets[keys[0]]|, (j: nat) => (keys[0], j));
      forall i, j | 0 <= i < |head| && 0 <= j < |ps| ensures KeyLess(head[i], ps[j]) {
        assert ps[j].0 in keys[1..];
      }
      AscendingAppend(head, ps);
    }
  }

  lemma AscendingAppend(xs: seq<(nat, nat)>, ys: seq<(nat, nat)>)
    requires Ascending(xs) && Ascending(ys)
    requires forall i, j | 0 <= i < |xs| && 0 <= j < |ys| :: KeyLess(xs[i], ys[j])
    ensures Ascending(xs + ys)
  {
  }

  lemma RowsAreCoins(wallets: map<nat, seq<Coin>>)
    ensures |WalletRows(Sorted(wallets.Keys), wallets)| == |Places(wallets)|
  {
    hide WalletRows, Places, Sorted;
    RowCount(Sorted(wallets.Keys), wallets);
    RestrictAll(wallets, Sorted(wallets.Keys));
    NothingAdded(Restrict(wallets, Sorted(wallets.Keys)));
  }

  lemma NothingAdded(m: map<nat, seq<Coin>>)
    ensures map[] + m == m
  {
  }

  /** A line of the wallet section: wallet, coin id, value. */
  ghost predicate CoinLine(f: Contents, line: string, x: (nat, nat)) {
    && x.0 in f.wallets && x.1 < |f.wallets[x.0]|
    && var c := f.wallets[x.0][x.1]; line == Words([x.0, c.id, c.value])
  }

  /** A line of the ledger section: wallet, coin id, expected value. */
  ghost predicate LedgerLine(f: Contents, line: string, k: Key) {
    k in f.expected && line == Words([k.0, k.1, f.expected[k]])
  }

  ghost predicate CoinLines(f: Contents, lines: seq<string>, ps: seq<(nat, nat)>) {
    |lines| == |ps| && forall i | 0 <= i < |ps| :: CoinLine(f, lines[i], ps[i])
  }

  ghost predicate TransferLines(ts: seq<Transfer>, lines: seq<string>) {
    |lines| == |ts| && forall i | 0 <= i < |ts| ::
      lines[i] == Blanked(ShareNumbers(ts[i].senders) + ShareNumbers(ts[i].receivers))
  }

  ghost predicate LedgerLines(f: Contents, lines: seq<string>, ks: seq<Key>) {
    |lines| == |ks| && forall i | 0 <= i < |ks| :: LedgerLine(f, lines[i], ks[i])
  }

  /**
   The file, line by line. The first line has the ten numbers of the header. Then comes a line for each coin of
   each wallet, wallets in ascending order and the coins of one in their order; a line for each transfer, with the
   senders before the receivers and a blank behind every number; and a line for each position of the ledger, in
   ascending order.
   */
  lemma LinesOfFile(f: Contents)
    returns (coins: seq<string>, transfers: seq<string>, values: seq<string>, ps: seq<(nat, nat)>, ks: seq<Key>)
    ensures FileText(f) ==
            Unlines([Words([f.p.wallets, f.p.coins, f.p.rounds, f.p.senders, f.p.receivers, f.p.initial, f.p.amount,
                            f.p.seed, |f.transfers|, |f.expected|])] + coins + transfers + values)
    ensures CoinLines(f, coins, ps) && Ascending(ps) && |ps| == |Places(f.wallets)|
    ensures TransferLines(f.transfers, transfers)
    ensures LedgerLines(f, values, ks) && Ascending(ks) && |ks| == |f.expected|
    ensures forall l | l in coins + transfers + values :: '\n' !in l
  {
    hide Words, Blanked, ShareNumbers, WalletRows, LedgerRows, PlaceList, FileText, Unlines, Sorted, SortedKeys, Each;
    hide Places, CoinLines, TransferLines, LedgerLines, RowLine, TransferLine;
    var rows, last := WalletRows(Sorted(f.wallets.Keys), f.wallets), LedgerRows(SortedKeys(f.expected.Keys), f.expected);
    coins, transfers, values := Each(rows, RowLine), Each(f.transfers, TransferLine), Each(last, RowLine);
    ps, ks := PlaceList(Sorted(f.wallets.Keys), f.wallets), SortedKeys(f.expected.Keys);
    TextIsLines(f);
    PlacesListed(Sorted(f.wallets.Keys), f.wallets);
    RowsAreCoins(f.wallets);
    CoinSection(f, ps, rows);
    TransferSection(f.transfers);
    LedgerSectionLines(f, ks);
    NoLineBreaks(rows);
    NoLineBreaks(last);
    NoTransferBreaks(f.transfers);
  }

  lemma CoinSection(f: Contents, ps: seq<(nat, nat)>, rows: seq<Row>)
    requires |ps| == |rows|
    requires forall i | 0 <= i < |ps| ::
               && ps[i].0 in f.wallets && ps[i].1 < |f.wallets[ps[i].0]|
               && rows[i] == Row(ps[i].0, f.wallets[ps[i].0][ps[i].1])
    ensures CoinLines(f, Each(rows, RowLine), ps)
  {
    hide Words;
    EachAt(rows, RowLine);
  }

  lemma EachAt<T>(xs: seq<T>, f: T -> string)
    ensures |Each(xs, f)| == |xs| && forall i | 0 <= i < |xs| :: Each(xs, f)[i] == f(xs[i])
  {
  }

  lemma TransferSection(ts: seq<Transfer>)
    ensures TransferLines(ts, Each(ts, TransferLine))
  {
    hide Blanked, ShareNumbers;
    EachAt(ts, TransferLine);
  }

  lemma LedgerSectionLines(f: Contents, ks: seq<Key>)
    requires Ascending(ks) && (forall k :: k in ks <==> k in f.expected)
    ensures LedgerLines(f, Each(LedgerRows(ks, f.expected), RowLine), ks)
  {
    hide Words;
    EachAt(LedgerRows(ks, f.expected), RowLine);
    assert forall i | 0 <= i < |ks| :: ks[i] in ks;
  }

  lemma NoLineBreaks(rows: seq<Row>)
    ensures forall l | l in Each(rows, RowLine) :: '\n' !in l
  {
    hide Words;
    EachAt(rows, RowLine);
    forall i | 0 <= i < |rows| ensures '\n' !in Each(rows, RowLine)[i] {
      OneLine([rows[i].wallet, rows[i].coin.id, rows[i].coin.value]);
    }
  }

  lemma NoTransferBreaks(ts: seq<Transfer>)
    ensures forall l | l in Each(ts, TransferLine) :: '\n' !in l
  {
    hide Blanked, ShareNumbers;
    EachAt(ts, TransferLine);
    forall i | 0 <= i < |ts| ensures '\n' !in Each(ts, TransferLine)[i] {
      OneLine(ShareNumbers(ts[i].senders) + ShareNumbers(ts[i].receivers));
    }
  }

  // ----- Reading rows that are repeated or scattered

  /** The coins of a wallet, in the order of its rows. */
  function CoinsOf(rows: seq<Row>, w: nat): seq<Coin> {
    if rows == [] then []
    else
      var n := |rows| - 1;
      CoinsOf(rows[..n], w) + if rows[n].wallet == w then [rows[n].coin] else []
  }

  /** Wallet rows are collected by wallet, wherever they are. */
  lemma {:induction false} ScatteredRows(rows: seq<Row>, w: nat)
    ensures var m := PushAll(map[], rows);
            (w in m <==> CoinsOf(rows, w) != []) && (w in m ==> m[w] == CoinsOf(rows, w))
  {
    hide PushAll;
    if rows == [] {
      NothingPushed(map[]);
    } else {
      var n := |rows| - 1;
      ScatteredRows(rows[..n], w);
      PushAllAppend(map[], rows[..n], [rows[n]]);
      PushedOne(PushAll(map[], rows[..n]), rows[n]);
      assert rows == rows[..n] + [rows[n]];
    }
  }

  lemma PushedOne(m: map<nat, seq<Coin>>, r: Row)
    ensures PushAll(m, [r]) == Push(m, r)
  {
    assert [r][1..] == [];
  }

  lemma {:induction false} OtherRows(l: Ledger, rows: seq<Row>, k: Key)
    requires forall r | r in rows :: (r.wallet, r.coin.id) != k
    ensures k in PutAll(l, rows) <==> k in l
    ensures k in l ==> PutAll(l, rows)[k] == l[k]
    decreases |rows|
  {
    if rows != [] {
      OtherRows(l[(rows[0].wallet, rows[0].coin.id) := rows[0].coin.value], rows[1..], k);
    }
  }

  /** Of several ledger rows for one position the last one counts. */
  lemma {:induction false} LastRowCounts(l: Ledger, rows: seq<Row>, i: nat)
    requires i < |rows|
    requires forall j | i < j < |rows| :: (rows[j].wallet, rows[j].coin.id) != (rows[i].wallet, rows[i].coin.id)
    ensures var k := (rows[i].wallet, rows[i].coin.id);
            k in PutAll(l, rows) && PutAll(l, rows)[k] == rows[i].coin.value
    decreases |rows|
  {
    var m := l[(rows[0].wallet, rows[0].coin.id) := rows[0].coin.value];
    if i == 0 {
      OtherRows(m, rows[1..], (rows[0].wallet, rows[0].coin.id));
    } else {
      LastRowCounts(m, rows[1..], i - 1);
    }
  }

  /**
   Whatever rows a file has, if there are as many as its first line says: the wallets are what the rows push to
   them, the ledger is what the rows put into it, and reading stops behind the last announced row.
   */
  lemma {:induction false} RowsRead(p: Params, coins: seq<Row>, ts: seq<Transfer>, values: seq<Row>, tail: seq<nat>)
    requires FitsParams(p) && |coins| == p.wallets * p.coins && |ts| < TWO_64 && |values| < TWO_64
    requires (forall r | r in coins :: FitsRow(r)) && (forall r | r in values :: FitsRow(r))
    requires forall t | t in ts :: FitsTransfer(t) && |t.senders| == p.senders && |t.receivers| == p.receivers
    ensures ReadFile(Nums(HeaderText(p, |ts|, |values|))
                     + (Nums(Flat(coins, RowText)) + (Nums(Flat(ts, TransferText)) + (Nums(Flat(values, RowText)) + tail))))
         == Some((Contents(p, PushAll(map[], coins), ts, PutAll(map[], values)), tail))
  {
    hide Flat, Nums, HeaderText, ReadHeader, ReadWallets, ReadTransfers, ReadLedger, FitsParams, FitsTransfer, FitsRow;
    hide PushAll, PutAll;
    var c := Nums(Flat(values, RowText)) + tail;
    var b := Nums(Flat(ts, TransferText)) + c;
    HeaderRead(p, |ts|, |values|, Nums(Flat(coins, RowText)) + b);
    WalletsRead(coins, b, map[]);
    TransfersRead(p, ts, c, []);
    assert [] + ts == ts;
    LedgerRead(values, tail, map[]);
  }
}
