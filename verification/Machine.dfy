/**
 What `generate` does, one pick at a time. A state is what the C++ locals and fields hold between two picks:
 the list of wallet ids still to be used, the cursor into it, the ledger of expected values, the transfers
 emitted so far and the transfer under construction. `At(p, order, k)` is the state after `k` steps when
 shuffling turned the list of wallets into `order`.
 */
module Machine {
  import opened Common
  import opened Workload

  datatype Status = Running | Complete | Abandoned | OutOfFunds

  datatype State = State(
    list: seq<nat>,
    cursor: nat,
    ledger: Ledger,
    transfers: seq<Transfer>,
    partial: Transfer,
    status: Status
  ) {
    /** The cursor is at an entry of the list, unless the list is empty. */
    predicate Placed() {
      cursor < |list| || (list == [] && cursor == 0)
    }

    function Picks(): nat {
      |partial.senders| + |partial.receivers|
    }

    /** Between two transfers. */
    predicate AtBoundary() {
      partial == NO_TRANSFER
    }

    /** The emitted transfers and the part of a transfer whose effect is in the ledger already. */
    function AllTransfers(): seq<Transfer> {
      transfers + [partial]
    }
  }

  // ----- Names of wallets

  function Names(es: seq<Share>): seq<nat> {
    seq(|es|, j requires 0 <= j < |es| => es[j].wallet)
  }

  function NamesOf(t: Transfer): seq<nat> {
    Names(t.senders) + Names(t.receivers)
  }

  function Values(xs: seq<nat>): set<nat> {
    set x | x in xs
  }

  function Picked(t: Transfer): set<nat> {
    Values(NamesOf(t))
  }

  // ----- The circular scan

  function Wrap(i: nat, n: nat): nat
    requires i < 2 * n
  {
    if i < n then i else i - n
  }

  /** The entry that is `j` places after the cursor, going round. */
  function Circular(list: seq<nat>, cursor: nat, j: nat): nat
    requires cursor < |list| && j < |list|
  {
    list[Wrap(cursor + j, |list|)]
  }

  /** The scan, once it has passed over `j` entries: it gives up after one full circle. */
  function FirstFree(list: seq<nat>, cursor: nat, picked: set<nat>, j: nat): (r: Option<nat>)
    requires cursor < |list| || list == []
    requires j <= |list|
    ensures r.Some? ==> exists d | j <= d < |list| ::
              && r.value == Wrap(cursor + d, |list|)
              && Circular(list, cursor, d) !in picked
              && forall i | j <= i < d :: Circular(list, cursor, i) in picked
    ensures r.None? ==> forall i | j <= i < |list| :: Circular(list, cursor, i) in picked
    decreases |list| - j
  {
    if j == |list| then None
    else if Circular(list, cursor, j) !in picked then Some(Wrap(cursor + j, |list|))
    else FirstFree(list, cursor, picked, j + 1)
  }

  /** A scan from the cursor gives up only if no wallet of the list is free, and finds a free one otherwise. */
  lemma ScanFinds(list: seq<nat>, cursor: nat, picked: set<nat>)
    requires cursor < |list| || list == []
    ensures var r := FirstFree(list, cursor, picked, 0);
            && (r.None? <==> forall x | x in list :: x in picked)
            && (r.Some? ==> r.value < |list| && list[r.value] !in picked)
  {
    var r := FirstFree(list, cursor, picked, 0);
    if r.None? {
      forall x | x in list ensures x in picked {
        var i :| 0 <= i < |list| && list[i] == x;
        var d := if cursor <= i then i - cursor else i + |list| - cursor;
        assert Circular(list, cursor, d) == x;
      }
    }
  }

  function Erase(list: seq<nat>, i: nat): seq<nat>
    requires i < |list|
  {
    list[..i] + list[i + 1..]
  }

  /** After an erase the cursor is at the entry that followed, and at the first one past the end. */
  function Settle(i: nat, n: nat): nat {
    if i == n then 0 else i
  }

  // ----- Coins

  /** The position, from `j` on, of the first coin of wallet `w` that is worth `price` in the ledger. */
  function FirstFit(l: Ledger, w: nat, coins: seq<Coin>, price: nat, j: nat): (r: Option<nat>)
    requires j <= |coins|
    ensures r.Some? ==> && j <= r.value < |coins| && price <= Held(l, (w, coins[r.value].id))
                        && forall i | j <= i < r.value :: Held(l, (w, coins[i].id)) < price
    ensures r.None? ==> forall i | j <= i < |coins| :: Held(l, (w, coins[i].id)) < price
    decreases |coins| - j
  {
    if j == |coins| then None
    else if price <= Held(l, (w, coins[j].id)) then Some(j)
    else FirstFit(l, w, coins, price, j + 1)
  }

  /** All coins of a list of senders, in order. */
  function Inputs(es: seq<Share>): seq<Coin> {
    if es == [] then [] else Inputs(es[..|es| - 1]) + es[|es| - 1].coins
  }

  /** What each receiver gets for these coins. */
  function Payout(p: Params, coins: seq<Coin>): seq<Coin>
    requires p.receivers > 0
  {
    seq(|coins|, j requires 0 <= j < |coins| => Coin(coins[j].id, coins[j].value / p.receivers))
  }

  function CreditAll(l: Ledger, w: nat, coins: seq<Coin>): Ledger {
    if coins == [] then l
    else
      var n := |coins| - 1;
      var m := CreditAll(l, w, coins[..n]);
      var key := (w, coins[n].id);
      m[key := Add32(Held(m, key), coins[n].value)]
  }

  lemma CreditNone(l: Ledger, w: nat)
    ensures CreditAll(l, w, []) == l
  {
  }

  lemma CreditOne(l: Ledger, w: nat, coins: seq<Coin>, c: Coin)
    ensures var m := CreditAll(l, w, coins);
            CreditAll(l, w, coins + [c]) == m[(w, c.id) := Add32(Held(m, (w, c.id)), c.value)]
  {
    assert (coins + [c])[..|coins|] == coins;
  }

  // ----- Steps

  function TakeSender(p: Params, s: State, i: nat, coin: nat): (r: State)
    requires s.Placed() && i < |s.list|
    ensures r.Placed()
  {
    var x := s.list[i];
    var key := (x, coin);
    s.(list := Erase(s.list, i),
       cursor := Settle(i, |s.list| - 1),
       ledger := s.ledger[key := Sub32(Held(s.ledger, key), p.Debit())],
       partial := s.partial.(senders := s.partial.senders + [Share(x, [Coin(coin, p.Debit())])]))
  }

  function PickSender(p: Params, s: State): (r: State)
    requires s.Placed()
    ensures r.Placed()
  {
    match FirstFree(s.list, s.cursor, Picked(s.partial), 0)
    case None => s.(status := Abandoned)
    case Some(i) =>
      var x := s.list[i];
      match FirstFit(s.ledger, x, p.Minted(x), p.Debit(), 0)
      case None => s.(status := OutOfFunds)
      case Some(j) => TakeSender(p, s, i, p.Minted(x)[j].id)
  }

  function TakeReceiver(p: Params, s: State, i: nat): (r: State)
    requires s.Placed() && i < |s.list| && p.receivers > 0
    ensures r.Placed()
  {
    var x := s.list[i];
    var coins := Payout(p, Inputs(s.partial.senders));
    s.(list := Erase(s.list, i),
       cursor := Settle(i, |s.list| - 1),
       ledger := CreditAll(s.ledger, x, coins),
       partial := s.partial.(receivers := s.partial.receivers + [Share(x, coins)]))
  }

  function PickReceiver(p: Params, s: State): (r: State)
    requires s.Placed() && p.receivers > 0
    ensures r.Placed()
  {
    match FirstFree(s.list, s.cursor, Picked(s.partial), 0)
    case None => s.(status := Abandoned)
    case Some(i) => TakeReceiver(p, s, i)
  }

  function Step(p: Params, s: State): (r: State)
    requires s.Placed()
    ensures r.Placed()
  {
    if s.status != Running then s
    else if s.AtBoundary() && |s.list| < p.Size() then s.(status := Complete)
    else if |s.partial.senders| < p.senders then PickSender(p, s)
    else if |s.partial.receivers| < p.receivers then PickReceiver(p, s)
    else s.(transfers := s.transfers + [s.partial], partial := NO_TRANSFER)
  }

  function Init(p: Params, order: seq<nat>): (r: State)
    ensures r.Placed()
  {
    State(order, 0, Mint(p), [], NO_TRANSFER, Running)
  }

  function At(p: Params, order: seq<nat>, k: nat): (r: State)
    ensures r.Placed()
  {
    if k == 0 then Init(p, order) else Step(p, At(p, order, k - 1))
  }

  function Repeat(w: nat, m: nat): (r: seq<nat>)
    ensures |r| == m && forall i | 0 <= i < m :: r[i] == w
  {
    seq(m, _ => w)
  }

  /** Each wallet id below `n`, `rounds` times. */
  function WalletList(p: Params, n: nat): seq<nat> {
    if n == 0 then [] else WalletList(p, n - 1) + Repeat(n - 1, p.rounds)
  }

  /** The shuffled list holds every wallet id `rounds` times. */
  ghost predicate Shuffled(p: Params, order: seq<nat>) {
    multiset(order) == multiset(WalletList(p, p.wallets))
  }

  /** How many steps a state can still take. */
  function Fuel(s: State): nat {
    if s.status == Running then 1 + 2 * |s.list| + s.Picks() else 0
  }

  lemma StepConsumesFuel(p: Params, s: State)
    requires p.Valid() && s.Placed() && s.status == Running
    ensures Fuel(Step(p, s)) < Fuel(s)
  {
  }

  lemma StoppedSteps(p: Params, s: State)
    requires s.Placed() && s.status != Running
    ensures Step(p, s) == s
  {
  }

  lemma {:induction false} FuelBound(p: Params, order: seq<nat>, k: nat)
    requires p.Valid()
    ensures At(p, order, k).status != Running || k + Fuel(At(p, order, k)) <= 1 + 2 * |order|
  {
    hide Step;
    if k > 0 {
      FuelBound(p, order, k - 1);
      var s := At(p, order, k - 1);
      if s.status == Running {
        StepConsumesFuel(p, s);
      } else {
        StoppedSteps(p, s);
      }
    }
  }

  /** The state in which `generate` ends. */
  function Final(p: Params, order: seq<nat>): State {
    At(p, order, 1 + 2 * |order|)
  }

  lemma {:induction false} StaysPut(p: Params, order: seq<nat>, k: nat, m: nat)
    requires k <= m && At(p, order, k).status != Running
    ensures At(p, order, m) == At(p, order, k)
  {
    hide Step;
    if k < m {
      StaysPut(p, order, k, m - 1);
      StoppedSteps(p, At(p, order, m - 1));
    }
  }

  /** The generator always terminates, after at most one step more than twice the number of entries. */
  lemma Terminates(p: Params, order: seq<nat>)
    requires p.Valid()
    ensures Final(p, order).status != Running
  {
    FuelBound(p, order, 1 + 2 * |order|);
  }

  /** A state that has stopped is the final one, whenever it was reached. */
  lemma StoppedIsFinal(p: Params, order: seq<nat>, k: nat)
    requires p.Valid() && At(p, order, k).status != Running
    ensures At(p, order, k) == Final(p, order)
  {
    Terminates(p, order);
    var m := 1 + 2 * |order|;
    if k <= m {
      StaysPut(p, order, k, m);
    } else {
      StaysPut(p, order, m, k);
    }
  }
}
