/** What holds after every step of the generator: where the wallets are, and what the transfers look like. */
module Invariants {
  import opened Common
  import opened Workload
  import opened Machine
  import opened Events

  // ----- Occurrences of wallets

  /** All appearances of wallets in a list of transfers. */
  function Used(ts: seq<Transfer>): multiset<nat> {
    if ts == [] then multiset{} else Used(ts[..|ts| - 1]) + multiset(NamesOf(ts[|ts| - 1]))
  }

  lemma UsedOne(ts: seq<Transfer>, t: Transfer)
    ensures Used(ts + [t]) == Used(ts) + multiset(NamesOf(t))
  {
    assert (ts + [t])[..|ts|] == ts;
  }

  lemma NamesGrow(t: Transfer, e: Share)
    ensures Names(t.senders + [e]) == Names(t.senders) + [e.wallet]
    ensures multiset(NamesOf(t.(senders := t.senders + [e]))) == multiset(NamesOf(t)) + multiset{e.wallet}
    ensures NamesOf(t.(receivers := t.receivers + [e])) == NamesOf(t) + [e.wallet]
  {
    assert Names(t.senders + [e]) == Names(t.senders) + [e.wallet];
    assert Names(t.receivers + [e]) == Names(t.receivers) + [e.wallet];
  }

  lemma EraseOne(list: seq<nat>, i: nat)
    requires i < |list|
    ensures multiset(Erase(list, i)) + multiset{list[i]} == multiset(list)
  {
    assert list == list[..i] + [list[i]] + list[i + 1..];
  }

  lemma NothingUsed()
    ensures Used([NO_TRANSFER]) == multiset{}
  {
    assert NamesOf(NO_TRANSFER) == [];
    UsedOne([], NO_TRANSFER);
  }

  /** Moving one wallet from the list to the partial transfer keeps the account. */
  lemma PickAccounted(s: State, r: State, x: nat)
    requires r.transfers == s.transfers
    requires multiset(r.list) + multiset{x} == multiset(s.list)
    requires multiset(NamesOf(r.partial)) == multiset(NamesOf(s.partial)) + multiset{x}
    ensures multiset(r.list) + Used(r.AllTransfers()) == multiset(s.list) + Used(s.AllTransfers())
  {
    hide Used, NamesOf;
    UsedOne(s.transfers, s.partial);
    UsedOne(r.transfers, r.partial);
  }

  lemma EmitAccounted(s: State, r: State)
    requires r.transfers == s.transfers + [s.partial] && r.partial == NO_TRANSFER
    ensures Used(r.AllTransfers()) == Used(s.AllTransfers())
  {
    hide Used;
    UsedOne(r.transfers, r.partial);
    assert multiset(NamesOf(NO_TRANSFER)) == multiset{};
  }

  lemma AccountingStep(p: Params, s: State, e: Event, r: State)
    requires s.Placed() && Happens(p, s, e, r)
    ensures multiset(r.list) + Used(r.AllTransfers()) == multiset(s.list) + Used(s.AllTransfers())
  {
    hide FirstFree, FirstWorth, NoneWorth, CreditAll, Payout, Used, NamesOf, NoneFree, Erase;
    match e {
      case Send(i, j) =>
        EraseOne(s.list, i);
        NamesGrow(s.partial, r.partial.senders[|s.partial.senders|]);
        PickAccounted(s, r, s.list[i]);
      case Receive(i) =>
        EraseOne(s.list, i);
        NamesGrow(s.partial, r.partial.receivers[|s.partial.receivers|]);
        PickAccounted(s, r, s.list[i]);
      case Emit =>
        EmitAccounted(s, r);
      case _ =>
    }
  }

  /**
   Every appearance is accounted for: what is in the list, in the emitted transfers and in the partial one
   is together what was shuffled.
   */
  lemma {:induction false} Accounting(p: Params, order: seq<nat>, k: nat)
    ensures var s := At(p, order, k);
            multiset(s.list) + Used(s.AllTransfers()) == multiset(order)
  {
    hide Step, Happens, Used, NamesOf;
    if k == 0 {
      NothingUsed();
      assert At(p, order, 0).AllTransfers() == [NO_TRANSFER];
    } else {
      Accounting(p, order, k - 1);
      var e := EventAt(p, order, k - 1);
      AccountingStep(p, At(p, order, k - 1), e, At(p, order, k));
    }
  }

  lemma {:induction false} WalletListSize(p: Params, n: nat)
    ensures |WalletList(p, n)| == n * p.rounds
  {
    if n > 0 {
      WalletListSize(p, n - 1);
      assert (n - 1) * p.rounds + p.rounds == n * p.rounds;
    }
  }

  lemma ConcatCount(xs: seq<nat>, ys: seq<nat>, x: nat)
    ensures multiset(xs + ys)[x] == multiset(xs)[x] + multiset(ys)[x]
  {
  }

  lemma {:induction false} WalletListCount(p: Params, n: nat, x: nat)
    ensures multiset(WalletList(p, n))[x] == if x < n then p.rounds else 0
  {
    if n > 0 {
      WalletListCount(p, n - 1, x);
      var last := Repeat(n - 1, p.rounds);
      RepeatCount(p.rounds, n - 1, x);
      ConcatCount(WalletList(p, n - 1), last, x);
    }
  }

  lemma {:induction false} RepeatCount(m: nat, w: nat, x: nat)
    ensures multiset(Repeat(w, m))[x] == if x == w then m else 0
  {
    if m > 0 {
      RepeatCount(m - 1, w, x);
      assert Repeat(w, m) == Repeat(w, m - 1) + [w];
    }
  }

  /** In the shuffled list every wallet appears as often as asked for, and nothing else appears. */
  lemma ShuffledCount(p: Params, order: seq<nat>, x: nat)
    requires Shuffled(p, order)
    ensures |order| == p.wallets * p.rounds
    ensures multiset(order)[x] == if x < p.wallets then p.rounds else 0
  {
    WalletListCount(p, p.wallets, x);
    WalletListSize(p, p.wallets);
    assert |order| == |multiset(order)| == |multiset(WalletList(p, p.wallets))|;
  }

  /**
   For every wallet, after every step: appearances in emitted transfers, plus appearances in the partial
   transfer, plus entries left in the list, are exactly `transfers_per_wallet`.
   */
  lemma {:induction false} OccurrenceAccounting(p: Params, order: seq<nat>, k: nat, x: nat)
    requires Shuffled(p, order)
    ensures var s := At(p, order, k);
            Used(s.transfers)[x] + multiset(NamesOf(s.partial))[x] + multiset(s.list)[x]
            == if x < p.wallets then p.rounds else 0
  {
    hide Step;
    Accounting(p, order, k);
    ShuffledCount(p, order, x);
    UsedOne(At(p, order, k).transfers, At(p, order, k).partial);
  }

  lemma {:induction false} ListedWallets(p: Params, order: seq<nat>, k: nat, i: nat)
    requires Shuffled(p, order) && i < |At(p, order, k).list|
    ensures At(p, order, k).list[i] < p.wallets
  {
    hide Step;
    var s := At(p, order, k);
    OccurrenceAccounting(p, order, k, s.list[i]);
    assert s.list[i] in multiset(s.list);
  }

  // ----- Shapes of transfers

  /** A sender pays the price with a single coin of its own. */
  ghost predicate SenderShape(p: Params, e: Share) {
    && |e.coins| == 1
    && e.coins[0].value == p.Debit()
    && p.Owns(e.wallet, e.coins[0].id)
  }

  ghost predicate Distinct(xs: seq<nat>) {
    forall i, j | 0 <= i < j < |xs| :: xs[i] != xs[j]
  }

  /** A transfer, maybe not complete yet. */
  ghost predicate PartShape(p: Params, t: Transfer) {
    && |t.senders| <= p.senders && |t.receivers| <= p.receivers
    && (t.receivers != [] ==> |t.senders| == p.senders)
    && (forall e | e in t.senders :: SenderShape(p, e))
    && (forall e | e in t.receivers :: e.wallet < p.wallets && e.coins == Payout(p, Inputs(t.senders)))
    && Distinct(NamesOf(t))
  }

  ghost predicate FullShape(p: Params, t: Transfer) {
    PartShape(p, t) && |t.senders| == p.senders && |t.receivers| == p.receivers
  }

  lemma {:induction false} InputsOfSingles(p: Params, es: seq<Share>)
    requires forall e | e in es :: SenderShape(p, e)
    ensures |Inputs(es)| == |es|
    ensures forall i | 0 <= i < |es| :: es[i].coins == [Inputs(es)[i]]
  {
    if es != [] {
      var n := |es| - 1;
      InputsOfSingles(p, es[..n]);
      assert SenderShape(p, es[n]);
    }
    forall e | e in es ensures |e.coins| == 1 {
      assert SenderShape(p, e);
    }
  }

  lemma DistinctGrows(xs: seq<nat>, ys: seq<nat>, x: nat)
    requires Distinct(xs + ys) && x !in xs && x !in ys
    ensures Distinct(xs + [x] + ys)
  {
    var zs := xs + [x] + ys;
    forall i, j | 0 <= i < j < |zs| ensures zs[i] != zs[j] {
      var u := if i <= |xs| then i else i - 1;
      var v := if j <= |xs| then j else j - 1;
      if i != |xs| && j != |xs| {
        assert zs[i] == (xs + ys)[u] && zs[j] == (xs + ys)[v];
      }
    }
  }

  lemma SendKeepsShape(p: Params, t: Transfer, e: Share)
    requires PartShape(p, t) && |t.senders| < p.senders
    requires SenderShape(p, e) && e.wallet !in Picked(t)
    ensures PartShape(p, t.(senders := t.senders + [e]))
  {
    var u := t.(senders := t.senders + [e]);
    NamesGrow(t, e);
    assert NamesOf(u) == Names(t.senders) + [e.wallet] + Names(t.receivers);
    DistinctGrows(Names(t.senders), Names(t.receivers), e.wallet);
  }

  lemma ReceiveKeepsShape(p: Params, t: Transfer, e: Share)
    requires PartShape(p, t) && |t.senders| == p.senders && |t.receivers| < p.receivers
    requires e.wallet < p.wallets && e.coins == Payout(p, Inputs(t.senders)) && e.wallet !in Picked(t)
    ensures PartShape(p, t.(receivers := t.receivers + [e]))
  {
    NamesGrow(t, e);
    assert NamesOf(t) + [e.wallet] == NamesOf(t) + [e.wallet] + [];
    assert NamesOf(t) == NamesOf(t) + [];
    DistinctGrows(NamesOf(t), [], e.wallet);
  }

  lemma ShapesStep(p: Params, s: State, e: Event, r: State)
    requires s.Placed() && Happens(p, s, e, r)
    requires PartShape(p, s.partial) && forall t | t in s.transfers :: FullShape(p, t)
    requires forall x | x in s.list :: x < p.wallets
    ensures PartShape(p, r.partial) && forall t | t in r.transfers :: FullShape(p, t)
  {
    match e {
      case Send(i, j) =>
        assert s.list[i] in s.list;
        SendKeepsShape(p, s.partial, r.partial.senders[|s.partial.senders|]);
      case Receive(i) =>
        assert s.list[i] in s.list;
        ReceiveKeepsShape(p, s.partial, r.partial.receivers[|s.partial.receivers|]);
      case Emit => assert NamesOf(NO_TRANSFER) == [];
      case _ =>
    }
  }

  /** Every emitted transfer is complete and well formed; the one under construction is on its way there. */
  lemma {:induction false} Shapes(p: Params, order: seq<nat>, k: nat)
    requires Shuffled(p, order)
    ensures var s := At(p, order, k);
            PartShape(p, s.partial) && forall t | t in s.transfers :: FullShape(p, t)
  {
    hide Step, Happens;
    if k == 0 {
      assert NamesOf(NO_TRANSFER) == [];
    } else {
      Shapes(p, order, k - 1);
      var s := At(p, order, k - 1);
      forall i | 0 <= i < |s.list| ensures s.list[i] < p.wallets {
        ListedWallets(p, order, k - 1, i);
      }
      var e := EventAt(p, order, k - 1);
      ShapesStep(p, s, e, At(p, order, k));
    }
  }

  /**
   What is in an emitted transfer, to the coin: every sender sends one coin of its own for the price, and every
   receiver gets an equal part of each sender's coin, in the order of the senders.
   */
  lemma CoinsOfTransfer(p: Params, order: seq<nat>, k: nat, a: nat, i: nat, j: nat)
    requires Shuffled(p, order) && a < |At(p, order, k).transfers| && i < p.senders
    ensures var t, price := At(p, order, k).transfers[a], p.amount * p.receivers % 0x1_0000_0000;
            && |t.senders| == p.senders && |t.receivers| == p.receivers
            && |t.senders[i].coins| == 1 && t.senders[i].coins[0].value == price
            && t.senders[i].wallet * p.coins <= t.senders[i].coins[0].id < t.senders[i].wallet * p.coins + p.coins
            && (j < p.receivers ==>
                  && |t.receivers[j].coins| == p.senders
                  && t.receivers[j].coins[i] == Coin(t.senders[i].coins[0].id, price / p.receivers))
  {
    hide Step, At, Inputs;
    Shapes(p, order, k);
    var t := At(p, order, k).transfers[a];
    assert FullShape(p, t);
    assert SenderShape(p, t.senders[i]);
    InputsOfSingles(p, t.senders);
    if j < p.receivers {
      assert t.receivers[j] in t.receivers;
    }
  }

  // ----- The list

  ghost predicate Increasing(at: seq<nat>) {
    forall i, j | 0 <= i < j < |at| :: at[i] < at[j]
  }

  /** `at` says which entries of `order` are left in `list`. */
  ghost predicate Selects(order: seq<nat>, at: seq<nat>, list: seq<nat>) {
    && Increasing(at) && |at| == |list|
    && forall i | 0 <= i < |at| :: at[i] < |order| && order[at[i]] == list[i]
  }

  lemma EraseSelects(order: seq<nat>, at: seq<nat>, list: seq<nat>, i: nat)
    requires Selects(order, at, list) && i < |list|
    ensures Selects(order, Erase(at, i), Erase(list, i))
  {
  }

  /** What is left in the list is a subsequence of the shuffled list, in the same order. */
  lemma {:induction false} StaysSubsequence(p: Params, order: seq<nat>, k: nat) returns (at: seq<nat>)
    ensures Selects(order, at, At(p, order, k).list)
  {
    hide Step;
    if k == 0 {
      at := seq(|order|, i => i);
    } else {
      at := StaysSubsequence(p, order, k - 1);
      var e := EventAt(p, order, k - 1);
      if e.Send? || e.Receive? {
        EraseSelects(order, at, At(p, order, k - 1).list, e.i);
        at := Erase(at, e.i);
      }
    }
  }

  /** `r.cursor` is the place of the first entry that was shuffled behind position `from`, going round. */
  ghost predicate CursorBehind(r: State, at: seq<nat>, from: nat)
    requires |at| == |r.list|
  {
    if exists j :: 0 <= j < |at| && at[j] > from
    then r.cursor < |at| && forall j | 0 <= j < |at| :: at[j] > from <==> r.cursor <= j
    else r.cursor == 0
  }

  /**
   Where the scan goes on: after every pick the cursor is at the first remaining entry behind the picked one
   in the shuffled order, or at the very first remaining entry if there is none behind it.
   */
  lemma CursorAfterPick(p: Params, order: seq<nat>, k: nat) returns (at: seq<nat>, i: nat)
    ensures var s, r := At(p, order, k), At(p, order, k + 1);
            |r.list| < |s.list| ==>
              && Selects(order, at, s.list) && NextFree(s, i)
              && Selects(order, Erase(at, i), r.list)
              && CursorBehind(r, Erase(at, i), at[i])
  {
    hide Step, FirstFree, FirstWorth, NoneWorth, CreditAll, Payout, NoneFree;
    var s, r := At(p, order, k), At(p, order, k + 1);
    at, i := [], 0;
    if |r.list| < |s.list| {
      at := StaysSubsequence(p, order, k);
      var e := EventAt(p, order, k);
      i := e.i;
      EraseSelects(order, at, s.list, i);
      SettledBehind(r, at, i);
    }
  }

  lemma SettledBehind(r: State, at: seq<nat>, i: nat)
    requires Increasing(at) && i < |at| && |r.list| == |at| - 1 && r.cursor == Settle(i, |at| - 1)
    ensures CursorBehind(r, Erase(at, i), at[i])
  {
    var rest := Erase(at, i);
    forall j | 0 <= j < |rest| ensures rest[j] > at[i] <==> i <= j {
    }
    if i < |rest| {
      assert rest[i] > at[i];
    }
  }
}
