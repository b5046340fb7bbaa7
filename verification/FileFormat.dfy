/** The workload file: what is printed, how it is read back, and when reading gives back what was printed. */
module FileFormat {
  import opened Common
  import opened Workload
  import opened Text

  /** All that a workload file is about. */
  datatype Contents = Contents(
    p: Params,
    wallets: map<nat, seq<Coin>>,
    transfers: seq<Transfer>,
    expected: Ledger
  )

  /** One line of the wallet section or of the ledger section. */
  datatype Row = Row(wallet: nat, coin: Coin)

  // ----- Iteration over maps, in the order of their keys

  predicate Least(s: set<nat>, m: nat) {
    m in s && forall x | x in s :: m <= x
  }

  lemma {:induction false} LeastExists(s: set<nat>)
    requires s != {}
    ensures exists m :: Least(s, m)
  {
    var a :| a in s;
    if s == {a} {
      assert Least(s, a);
    } else {
      LeastExists(s - {a});
      var m :| Least(s - {a}, m);
      forall x | x in s ensures (if a < m then a else m) <= x {
        assert x == a || x in s - {a};
      }
      assert Least(s, if a < m then a else m);
    }
  }

  function Sorted(s: set<nat>): (r: seq<nat>)
    ensures forall i, j | 0 <= i < j < |r| :: r[i] < r[j]
    ensures forall x :: x in r <==> x in s
  {
    if s == {} then []
    else
      LeastExists(s);
      var m :| Least(s, m);
      [m] + Sorted(s - {m})
  }

  predicate KeyLess(a: Key, b: Key) {
    a.0 < b.0 || (a.0 == b.0 && a.1 < b.1)
  }

  predicate LeastKey(s: set<Key>, m: Key) {
    m in s && forall x | x in s :: m == x || KeyLess(m, x)
  }

  lemma {:induction false} LeastKeyExists(s: set<Key>)
    requires s != {}
    ensures exists m :: LeastKey(s, m)
  {
    var a :| a in s;
    if s == {a} {
      assert LeastKey(s, a);
    } else {
      LeastKeyExists(s - {a});
      var m :| LeastKey(s - {a}, m);
      var least := if KeyLess(a, m) then a else m;
      forall x | x in s ensures least == x || KeyLess(least, x) {
        assert x == a || x in s - {a};
      }
      assert LeastKey(s, least);
    }
  }

  function SortedKeys(s: set<Key>): (r: seq<Key>)
    ensures forall i, j | 0 <= i < j < |r| :: KeyLess(r[i], r[j])
    ensures forall x :: x in r <==> x in s
    ensures |r| == |s|
  {
    if s == {} then []
    else
      LeastKeyExists(s);
      var m :| LeastKey(s, m);
      [m] + SortedKeys(s - {m})
  }

  // ----- Printing

  function CoinText(c: Coin): seq<Piece> {
    [Num(c.id), Space, Num(c.value), Space]
  }

  function ShareText(e: Share): seq<Piece> {
    [Num(e.wallet), Space, Num(|e.coins|), Space] + Flat(e.coins, CoinText)
  }

  function TransferText(t: Transfer): seq<Piece> {
    Flat(t.senders, ShareText) + Flat(t.receivers, ShareText) + [Newline]
  }

  function RowText(r: Row): seq<Piece> {
    [Num(r.wallet), Space, Num(r.coin.id), Space, Num(r.coin.value), Newline]
  }

  function HeaderText(p: Params, transferCount: nat, expectedCount: nat): seq<Piece> {
    [Num(p.wallets), Space, Num(p.coins), Space, Num(p.rounds), Space, Num(p.senders), Space, Num(p.receivers), Space,
     Num(p.initial), Space, Num(p.amount), Space, Num(p.seed), Space, Num(transferCount), Space,
     Num(expectedCount), Newline]
  }

  function CoinRows(w: nat, coins: seq<Coin>): seq<Row> {
    seq(|coins|, j requires 0 <= j < |coins| => Row(w, coins[j]))
  }

  function WalletRows(keys: seq<nat>, wallets: map<nat, seq<Coin>>): seq<Row>
    requires forall w | w in keys :: w in wallets
  {
    if keys == [] then [] else CoinRows(keys[0], wallets[keys[0]]) + WalletRows(keys[1..], wallets)
  }

  function LedgerRows(keys: seq<Key>, l: Ledger): seq<Row>
    requires forall k | k in keys :: k in l
  {
    seq(|keys|, i requires 0 <= i < |keys| => assert keys[i] in keys; Row(keys[i].0, Coin(keys[i].1, l[keys[i]])))
  }

  function FilePieces(f: Contents): seq<Piece> {
    HeaderText(f.p, |f.transfers|, |f.expected|)
    + Flat(WalletRows(Sorted(f.wallets.Keys), f.wallets), RowText)
    + Flat(f.transfers, TransferText)
    + Flat(LedgerRows(SortedKeys(f.expected.Keys), f.expected), RowText)
  }

  function FileText(f: Contents): string {
    Render(FilePieces(f))
  }

  // ----- Reading

  /** Extraction of one number into a field that can hold values below `limit`. */
  function Next(ts: seq<nat>, limit: nat): Option<(nat, seq<nat>)> {
    if ts == [] || ts[0] >= limit then None else Some((ts[0], ts[1..]))
  }

  function ReadCoin(ts: seq<nat>): Option<(Coin, seq<nat>)> {
    match Next(ts, TWO_64)
    case None => None
    case Some((id, ts1)) =>
      match Next(ts1, TWO_32)
      case None => None
      case Some((value, ts2)) => Some((Coin(id, value), ts2))
  }

  function ReadRow(ts: seq<nat>): Option<(Row, seq<nat>)> {
    match Next(ts, TWO_64)
    case None => None
    case Some((w, ts1)) =>
      match ReadCoin(ts1)
      case None => None
      case Some((c, ts2)) => Some((Row(w, c), ts2))
  }

  function ReadCoins(ts: seq<nat>, count: nat, acc: seq<Coin>): Option<(seq<Coin>, seq<nat>)> {
    if count == 0 then Some((acc, ts))
    else
      match ReadCoin(ts)
      case None => None
      case Some((c, rest)) => ReadCoins(rest, count - 1, acc + [c])
  }

  function ReadShare(ts: seq<nat>): Option<(Share, seq<nat>)> {
    match Next(ts, TWO_64)
    case None => None
    case Some((w, ts1)) =>
      match Next(ts1, TWO_64)
      case None => None
      case Some((count, ts2)) =>
        match ReadCoins(ts2, count, [])
        case None => None
        case Some((coins, ts3)) => Some((Share(w, coins), ts3))
  }

  function ReadShares(ts: seq<nat>, count: nat, acc: seq<Share>): Option<(seq<Share>, seq<nat>)>
    decreases count
  {
    if count == 0 then Some((acc, ts))
    else
      match ReadShare(ts)
      case None => None
      case Some((e, rest)) => ReadShares(rest, count - 1, acc + [e])
  }

  function ReadTransfer(p: Params, ts: seq<nat>): Option<(Transfer, seq<nat>)> {
    match ReadShares(ts, p.senders, [])
    case None => None
    case Some((senders, ts1)) =>
      match ReadShares(ts1, p.receivers, [])
      case None => None
      case Some((receivers, ts2)) => Some((Transfer(senders, receivers), ts2))
  }

  function ReadTransfers(p: Params, ts: seq<nat>, count: nat, acc: seq<Transfer>): Option<(seq<Transfer>, seq<nat>)>
    decreases count
  {
    if count == 0 then Some((acc, ts))
    else
      match ReadTransfer(p, ts)
      case None => None
      case Some((t, rest)) => ReadTransfers(p, rest, count - 1, acc + [t])
  }

  function Push(m: map<nat, seq<Coin>>, r: Row): map<nat, seq<Coin>> {
    m[r.wallet := (if r.wallet in m then m[r.wallet] else []) + [r.coin]]
  }

  function ReadWallets(ts: seq<nat>, count: nat, acc: map<nat, seq<Coin>>): Option<(map<nat, seq<Coin>>, seq<nat>)> {
    if count == 0 then Some((acc, ts))
    else
      match ReadRow(ts)
      case None => None
      case Some((r, rest)) => ReadWallets(rest, count - 1, Push(acc, r))
  }

  function ReadLedger(ts: seq<nat>, count: nat, acc: Ledger): Option<(Ledger, seq<nat>)> {
    if count == 0 then Some((acc, ts))
    else
      match ReadRow(ts)
      case None => None
      case Some((r, rest)) => ReadLedger(rest, count - 1, acc[(r.wallet, r.coin.id) := r.coin.value])
  }

  datatype Header = Header(p: Params, transferCount: nat, expectedCount: nat)

  /** The fields of the first line, with the widths of the variables they are read into. */
  const WIDTHS: seq<nat> := [TWO_64, TWO_64, TWO_64, TWO_64, TWO_64, TWO_32, TWO_32, TWO_64, TWO_64, TWO_64]

  function ReadHeader(ts: seq<nat>): Option<(Header, seq<nat>)> {
    if |ts| >= 10 && forall i | 0 <= i < 10 :: ts[i] < WIDTHS[i] then
      Some((Header(Params(ts[0], ts[1], ts[2], ts[3], ts[4], ts[5], ts[6], ts[7]), ts[8], ts[9]), ts[10..]))
    else None
  }

  /** Reads a whole file; what is left over of the stream is returned too. */
  function ReadFile(ts: seq<nat>): Option<(Contents, seq<nat>)> {
    match ReadHeader(ts)
    case None => None
    case Some((h, ts1)) =>
      match ReadWallets(ts1, h.p.wallets * h.p.coins, map[])
      case None => None
      case Some((wallets, ts2)) =>
        match ReadTransfers(h.p, ts2, h.transferCount, [])
        case None => None
        case Some((transfers, ts3)) =>
          match ReadLedger(ts3, h.expectedCount, map[])
          case None => None
          case Some((expected, ts4)) => Some((Contents(h.p, wallets, transfers, expected), ts4))
  }
}
