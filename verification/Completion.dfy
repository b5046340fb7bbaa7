/** When transfers complete, why the generator stops, and how many transfers it emits. */
module Completion {
  import opened Common
  import opened Workload
  import opened Ledgers
  import opened Machine
  import opened Events
  import opened Invariants
  import opened Accounts
  import opened Schedules

  // ----- Why the generator stops

  ghost predicate Explained(p: Params, s: State) {
    && (s.AtBoundary() || p.Size() <= |s.list| + s.Picks())
    && match s.status
    case Running => true
    case Complete => s.AtBoundary() && |s.list| < p.Size()
    case Abandoned => !s.AtBoundary() && s.Picks() < p.Size() && NoneFree(s)
    case OutOfFunds =>
      |s.partial.senders| < p.senders && exists x :: x in s.list && x !in Picked(s.partial) && NoneWorth(p, s.ledger, x)
  }

  lemma FreeAtBoundary(s: State)
    requires s.AtBoundary() && s.list != []
    ensures !NoneFree(s)
  {
    assert NamesOf(s.partial) == [];
    assert s.list[0] in s.list;
  }

  lemma StopExplained(p: Params, s: State, e: Event, r: State)
    requires p.Valid() && s.Placed() && Happens(p, s, e, r) && Explained(p, s)
    requires PartShape(p, s.partial)
    ensures Explained(p, r)
  {
    hide FirstFree, FirstWorth, NoneWorth, CreditAll, Payout, Inputs, SenderShape, Distinct, Params.Debit, NamesOf;
    if s.AtBoundary() && s.list != [] {
      FreeAtBoundary(s);
    }
    if e.Broke? {
      assert s.list[e.i] in s.list;
    }
  }

  /** A run ends between transfers, or with every entry left picked already, or with a sender that cannot pay. */
  lemma {:induction false} StopReasons(p: Params, order: seq<nat>, k: nat)
    requires p.Valid() && Shuffled(p, order)
    ensures Explained(p, At(p, order, k))
  {
    hide Step, Happens, Explained, PartShape, FullShape;
    if k == 0 {
      InitExplained(p, order);
    } else {
      StopReasons(p, order, k - 1);
      Shapes(p, order, k - 1);
      var e := EventAt(p, order, k - 1);
      StopExplained(p, At(p, order, k - 1), e, At(p, order, k));
    }
  }

  lemma InitExplained(p: Params, order: seq<nat>)
    ensures Explained(p, Init(p, order))
  {
  }

  // ----- Counting

  lemma SizesStep(p: Params, s: State, e: Event, r: State)
    requires s.Placed() && Happens(p, s, e, r) && PartShape(p, s.partial)
    ensures |r.list| + p.Size() * |r.transfers| + r.Picks() == |s.list| + p.Size() * |s.transfers| + s.Picks()
  {
    hide FirstFree, FirstWorth, NoneWorth, CreditAll, Payout, NoneFree, Params.Debit;
    if e.Emit? {
      assert p.Size() * (|s.transfers| + 1) == p.Size() * |s.transfers| + p.Size();
    }
  }

  /** Entries left, entries used by emitted transfers and picks of the partial transfer are all entries. */
  lemma {:induction false} Sizes(p: Params, order: seq<nat>, k: nat)
    requires Shuffled(p, order)
    ensures var s := At(p, order, k);
            |s.list| + p.Size() * |s.transfers| + s.Picks() == p.wallets * p.rounds
  {
    hide Step, Happens, PartShape, FullShape;
    if k == 0 {
      ShuffledCount(p, order, 0);
    } else {
      Sizes(p, order, k - 1);
      Shapes(p, order, k - 1);
      var e := EventAt(p, order, k - 1);
      SizesStep(p, At(p, order, k - 1), e, At(p, order, k));
    }
  }

  /** The pigeonhole principle: `m` draws from `xs`, at most `t` times each. */
  lemma {:induction false} Pigeonhole(m: multiset<nat>, xs: set<nat>, t: nat)
    requires forall x | x in m :: x in xs && m[x] <= t
    ensures |m| <= |xs| * t
  {
    if xs == {} {
      assert m == multiset{};
    } else {
      var x :| x in xs;
      var rest := m[x := 0];
      forall y | y in rest ensures y in xs - {x} && rest[y] <= t {
        assert y in m;
      }
      Pigeonhole(rest, xs - {x}, t);
      assert |m| == |rest| + m[x];
      assert (|xs| - 1) * t + t == |xs| * t;
    }
  }

  lemma {:induction false} DistinctCount(xs: seq<nat>)
    ensures |Values(xs)| <= |xs|
    ensures Distinct(xs) ==> |Values(xs)| == |xs|
  {
    if xs != [] {
      var n := |xs| - 1;
      DistinctCount(xs[..n]);
      assert Values(xs) == Values(xs[..n]) + {xs[n]};
    }
  }

  /** More than `(n - 1) * t` entries, with no wallet more than `t` times, come from at least `n` wallets. */
  lemma ManyWallets(list: seq<nat>, n: nat, t: nat)
    requires n >= 1 && forall x | x in list :: multiset(list)[x] <= t
    requires |list| > (n - 1) * t
    ensures |Values(list)| >= n
  {
    var xs := Values(list);
    Pigeonhole(multiset(list), xs, t);
    if |xs| <= n - 1 {
      MulMonotone(|xs|, n - 1, t);
    }
  }

  // ----- One transfer

  /** A transfer is started in this state. */
  predicate Starts(p: Params, s: State) {
    s.status == Running && s.AtBoundary() && p.Size() <= |s.list|
  }

  /** `s` is `j` picks into a transfer that was started with the list `list`. */
  ghost predicate Underway(p: Params, list: seq<nat>, done: seq<Transfer>, s: State, j: nat) {
    && multiset(s.list) + multiset(NamesOf(s.partial)) == multiset(list)
    && s.transfers == done && PartShape(p, s.partial)
    && (s.status == Running ==> s.Picks() == j && (j == 0 ==> p.Size() <= |s.list|))
    && Explained(p, s) && s.status != Complete
  }

  lemma PickKeeps(list: seq<nat>, s: State, r: State, x: nat)
    requires multiset(s.list) + multiset(NamesOf(s.partial)) == multiset(list)
    requires multiset(r.list) + multiset{x} == multiset(s.list)
    requires multiset(NamesOf(r.partial)) == multiset(NamesOf(s.partial)) + multiset{x}
    ensures multiset(r.list) + multiset(NamesOf(r.partial)) == multiset(list)
  {
    hide NamesOf;
  }

  lemma PickStep(p: Params, list: seq<nat>, done: seq<Transfer>, s: State, e: Event, r: State, j: nat)
    requires p.Valid() && s.Placed() && Happens(p, s, e, r) && j < p.Size()
    requires Underway(p, list, done, s, j) && PartShape(p, r.partial) && Explained(p, r)
    ensures Underway(p, list, done, r, j + 1)
  {
    hide FirstFree, FirstWorth, NoneWorth, CreditAll, Payout, Params.Debit, SenderShape, Explained, NoneFree;
    hide Names, NamesOf, PartShape, Erase, Picked;
    match e {
      case Send(i, _) =>
        EraseOne(s.list, i);
        NamesGrow(s.partial, r.partial.senders[|s.partial.senders|]);
        PickKeeps(list, s, r, s.list[i]);
      case Receive(i) =>
        EraseOne(s.list, i);
        NamesGrow(s.partial, r.partial.receivers[|s.partial.receivers|]);
        PickKeeps(list, s, r, s.list[i]);
      case _ =>
    }
  }

  lemma {:induction false} Picking(p: Params, order: seq<nat>, k: nat, j: nat)
    requires p.Valid() && Shuffled(p, order) && j <= p.Size()
    ensures var s := At(p, order, k); Starts(p, s) ==> Underway(p, s.list, s.transfers, At(p, order, k + j), j)
  {
    hide Step, Happens, FullShape, PartShape, Explained;
    var s := At(p, order, k);
    Shapes(p, order, k + j);
    StopReasons(p, order, k + j);
    if j == 0 {
      assert NamesOf(NO_TRANSFER) == [];
    } else if Starts(p, s) {
      Picking(p, order, k, j - 1);
      var e := EventAt(p, order, k + j - 1);
      PickStep(p, s.list, s.transfers, At(p, order, k + j - 1), e, At(p, order, k + j), j - 1);
    }
  }

  lemma FullEmits(p: Params, s: State)
    requires p.Valid() && s.Placed() && s.status == Running && PartShape(p, s.partial) && s.Picks() == p.Size()
    ensures Step(p, s) == s.(transfers := s.transfers + [s.partial], partial := NO_TRANSFER)
  {
  }

  lemma PickedCount(t: Transfer)
    requires Distinct(NamesOf(t))
    ensures |Picked(t)| == |t.senders| + |t.receivers|
  {
    DistinctCount(NamesOf(t));
  }

  lemma UnderwayCount(p: Params, list: seq<nat>, done: seq<Transfer>, s: State, j: nat)
    requires Underway(p, list, done, s, j)
    ensures s.status == Running && j == p.Size() ==> p.Size() <= |Values(list)|
    ensures s.status == Abandoned ==> |Values(list)| < p.Size()
  {
    hide SenderShape, Payout, Inputs;
    var xs := Values(list);
    PickedCount(s.partial);
    forall x | x in Picked(s.partial) ensures x in xs {
      assert x in multiset(NamesOf(s.partial)) && x in multiset(list);
    }
    Subset(Picked(s.partial), xs);
    if s.status == Abandoned {
      forall x | x in xs ensures x in Picked(s.partial) {
        assert x in multiset(list);
        assert x in multiset(s.list) || x in multiset(NamesOf(s.partial));
      }
      Subset(xs, Picked(s.partial));
    }
  }

  lemma {:induction false} Subset(xs: set<nat>, ys: set<nat>)
    requires xs <= ys
    ensures |xs| <= |ys|
  {
    if x :| x in xs {
      Subset(xs - {x}, ys - {x});
    }
  }

  /**
   Exactly when a transfer completes: a transfer that is started, and whose senders can all pay, is emitted
   after as many steps as it has wallets and one more if the entries left come from enough different wallets.
   Otherwise it is abandoned.
   */
  lemma TransferCompletes(p: Params, order: seq<nat>, k: nat)
    requires p.Valid() && Shuffled(p, order)
    ensures var s, r := At(p, order, k), At(p, order, k + p.Size() + 1);
            Starts(p, s) && r.status != OutOfFunds ==>
              if p.Size() <= |Values(s.list)|
              then r.status == Running && r.AtBoundary() && |r.transfers| == |s.transfers| + 1
              else r.status == Abandoned && r.transfers == s.transfers
  {
    hide Step, FullShape, PartShape, Explained;
    var n := p.Size();
    var s, q := At(p, order, k), At(p, order, k + n);
    if Starts(p, s) {
      Picking(p, order, k, n);
      UnderwayCount(p, s.list, s.transfers, q, n);
      Shapes(p, order, k + n);
      if q.status == Running {
        FullEmits(p, q);
      } else {
        StoppedSteps(p, q);
      }
    }
  }

  /** A transfer that is started with more than `(n - 1) * t` entries left finds all its wallets. */
  lemma {:induction false} EnoughEntries(p: Params, order: seq<nat>, k: nat)
    requires p.Valid() && Shuffled(p, order)
    requires |At(p, order, k).list| > (p.Size() - 1) * p.rounds
    ensures p.Size() <= |Values(At(p, order, k).list)|
  {
    hide Step;
    var list := At(p, order, k).list;
    forall x | x in list ensures multiset(list)[x] <= p.rounds {
      OccurrenceAccounting(p, order, k, x);
    }
    ManyWallets(list, p.Size(), p.rounds);
  }

  // ----- How many transfers are emitted

  /** A wallet that is in the list or picked has not appeared anywhere more than `rounds` times. */
  lemma {:induction false} CountedOnce(p: Params, order: seq<nat>, k: nat, x: nat)
    requires Shuffled(p, order)
    ensures var s := At(p, order, k); (multiset(s.list) + multiset(NamesOf(s.partial)))[x] <= p.rounds
  {
    hide Step;
    OccurrenceAccounting(p, order, k, x);
  }

  lemma {:induction false} PickedBound(p: Params, order: seq<nat>, k: nat)
    requires Shuffled(p, order) && NoneFree(At(p, order, k))
    ensures var s := At(p, order, k); |s.list| + s.Picks() <= s.Picks() * p.rounds
  {
    hide Step, FullShape, SenderShape, Payout, Inputs, Shuffled, Names;
    var s := At(p, order, k);
    Shapes(p, order, k);
    var m := multiset(s.list) + multiset(NamesOf(s.partial));
    forall x | x in m ensures x in Picked(s.partial) && m[x] <= p.rounds {
      CountedOnce(p, order, k, x);
      assert x in multiset(s.list) || x in multiset(NamesOf(s.partial));
    }
    Pigeonhole(m, Picked(s.partial), p.rounds);
    PickedCount(s.partial);
    NamesCount(s.partial);
  }

  lemma NamesCount(t: Transfer)
    ensures |multiset(NamesOf(t))| == |t.senders| + |t.receivers|
  {
  }

  /** What a run leaves over when it ends without an error. */
  lemma LeftOver(p: Params, order: seq<nat>, k: nat)
    requires p.Valid() && Shuffled(p, order)
    requires var s := At(p, order, k); s.status == Complete || s.status == Abandoned
    ensures var s := At(p, order, k);
            && (s.status == Abandoned ==> |s.list| + s.Picks() <= (p.Size() - 1) * p.rounds)
            && (s.status == Complete ==> |s.list| + s.Picks() <= p.Size() - 1)
  {
    hide Step, NoneFree;
    var s := At(p, order, k);
    StopReasons(p, order, k);
    if s.status == Abandoned {
      PickedBound(p, order, k);
      MulMonotone(s.Picks(), p.Size() - 1, p.rounds);
    }
  }

  // ----- Few wallets

  /** No transfer can be emitted with fewer wallets than it needs. */
  lemma {:induction false} TooFewWallets(p: Params, order: seq<nat>, k: nat)
    requires Shuffled(p, order) && p.wallets < p.Size()
    ensures At(p, order, k).transfers == []
  {
    hide Step, SenderShape, Payout;
    Shapes(p, order, k);
    var ts := At(p, order, k).transfers;
    if ts != [] {
      assert FullShape(p, ts[0]);
      EnoughWallets(p, ts[0]);
    }
  }

  lemma EnoughWallets(p: Params, t: Transfer)
    requires FullShape(p, t)
    ensures p.Size() <= p.wallets
  {
    PickedCount(t);
    var all := Below(p.wallets);
    forall x | x in Picked(t) ensures x in all {
      var i :| 0 <= i < |NamesOf(t)| && NamesOf(t)[i] == x;
      if i < |t.senders| {
        assert SenderShape(p, t.senders[i]);
      } else {
        assert t.receivers[i - |t.senders|].wallet == x;
      }
    }
    Subset(Picked(t), all);
  }

  function Below(n: nat): (xs: set<nat>)
    ensures |xs| == n && forall x: nat :: x in xs <==> x < n
  {
    if n == 0 then {} else Below(n - 1) + {n - 1}
  }

  /** Every run emits at least so many transfers: `t`, and `ceil((w - n + 1) * t / n)`, if there are `n` wallets. */
  function FewestTransfers(p: Params): nat
    requires p.Valid()
  {
    if p.wallets < p.Size() then 0
    else
      var spread := CeilDiv((p.wallets - p.Size() + 1) * p.rounds, p.Size());
      if spread < p.rounds then p.rounds else spread
  }

  /** And never more than this: `floor(w * t / n)`. */
  function MostTransfers(p: Params): nat
    requires p.Valid()
  {
    p.wallets * p.rounds / p.Size()
  }

  lemma SpreadBound(p: Params, emitted: nat, left: nat)
    requires p.Valid() && p.Size() <= p.wallets
    requires left + p.Size() * emitted == p.wallets * p.rounds && left <= (p.Size() - 1) * p.rounds
    ensures CeilDiv((p.wallets - p.Size() + 1) * p.rounds, p.Size()) <= emitted
  {
    var (w, t, n) := (p.wallets, p.rounds, p.Size());
    SplitProduct(w, n - 1, t);
    DivUpperStrict(n, emitted, (w - n + 1) * t + n - 1);
  }

  lemma SplitProduct(a: nat, b: nat, n: nat)
    requires b <= a
    ensures a * n == (a - b) * n + b * n
  {
  }

  lemma {:induction false} UsedAtMost(p: Params, ts: seq<Transfer>, x: nat)
    requires forall t | t in ts :: FullShape(p, t)
    ensures Used(ts)[x] <= |ts|
  {
    hide PartShape, NamesOf;
    if ts != [] {
      var n := |ts| - 1;
      UsedAtMost(p, ts[..n], x);
      assert FullShape(p, ts[n]);
      NamedOnce(p, ts[n], x);
    }
  }

  lemma NamedOnce(p: Params, t: Transfer, x: nat)
    requires FullShape(p, t)
    ensures multiset(NamesOf(t))[x] <= 1
  {
    hide SenderShape, Payout, Inputs, NamesOf;
    DistinctOnce(NamesOf(t), x);
  }

  lemma {:induction false} DistinctOnce(xs: seq<nat>, x: nat)
    requires Distinct(xs)
    ensures multiset(xs)[x] <= 1
  {
    if xs != [] {
      var n := |xs| - 1;
      DistinctOnce(xs[..n], x);
      assert xs == xs[..n] + [xs[n]];
      if x in multiset(xs[..n]) {
        assert x in xs[..n] && x != xs[n];
      }
    }
  }

  /** Some wallet is not picked by a transfer that is not complete, if there are enough wallets. */
  lemma SomeoneLeft(p: Params, t: Transfer) returns (x: nat)
    requires PartShape(p, t) && |t.senders| + |t.receivers| < p.Size() <= p.wallets
    ensures x < p.wallets && x !in Picked(t)
  {
    hide SenderShape, Payout, Inputs;
    PickedCount(t);
    if Below(p.wallets) <= Picked(t) {
      Subset(Below(p.wallets), Picked(t));
    }
    x :| x in Below(p.wallets) && x !in Picked(t);
  }

  /** With `n` wallets or more, a run that is abandoned has used up all appearances of some wallet before. */
  lemma {:induction false} AbandonedEmitsRounds(p: Params, order: seq<nat>, k: nat)
    requires p.Valid() && Shuffled(p, order) && p.Size() <= p.wallets
    ensures At(p, order, k).status == Abandoned ==> p.rounds <= |At(p, order, k).transfers|
  {
    hide Step, FullShape, PartShape;
    var s := At(p, order, k);
    if s.status == Abandoned {
      StopReasons(p, order, k);
      Shapes(p, order, k);
      var x := SomeoneLeft(p, s.partial);
      OccurrenceAccounting(p, order, k, x);
      assert x !in s.list && x !in NamesOf(s.partial);
      UsedAtMost(p, s.transfers, x);
    }
  }

  /** A run that does not fail is complete if and only if it emits the greatest number of transfers. */
  lemma CompleteMeansMost(p: Params, order: seq<nat>)
    requires p.Valid() && Shuffled(p, order)
    ensures var s := Final(p, order);
            s.status != OutOfFunds ==>
              && |s.transfers| <= MostTransfers(p)
              && (s.status == Complete <==> |s.transfers| == MostTransfers(p))
  {
    hide Step, Explained, Final;
    var k := 1 + 2 * |order|;
    FinalAt(p, order);
    var s := At(p, order, k);
    Terminates(p, order);
    Sizes(p, order, k);
    StopReasons(p, order, k);
    StopSizes(p, s);
    if s.status != OutOfFunds {
      var (n, total) := (p.Size(), p.wallets * p.rounds);
      DivUpper(n, |s.transfers|, total);
      if s.status == Complete {
        DivUpperStrict(n, |s.transfers|, total);
      } else {
        assert n * (|s.transfers| + 1) == n * |s.transfers| + n;
        DivUpper(n, |s.transfers| + 1, total);
      }
    }
  }

  lemma FinalAt(p: Params, order: seq<nat>)
    ensures Final(p, order) == At(p, order, 1 + 2 * |order|)
  {
    hide Step;
  }

  lemma StopSizes(p: Params, s: State)
    requires Explained(p, s)
    ensures s.status == Complete ==> |s.list| + s.Picks() < p.Size()
    ensures s.status == Abandoned ==> p.Size() <= |s.list| + s.Picks()
  {
  }

  lemma RoundsAtMost(p: Params)
    requires p.Valid() && p.Size() <= p.wallets
    ensures p.rounds <= MostTransfers(p)
  {
    MulMonotone(p.Size(), p.wallets, p.rounds);
    DivUpper(p.Size(), p.rounds, p.wallets * p.rounds);
  }

  /**
   Every run that does not run out of funds emits at least the fewest and at most the most transfers, whatever
   the shuffle; without enough wallets it emits none.
   */
  lemma CompletionBound(p: Params, order: seq<nat>)
    requires p.Valid() && Shuffled(p, order)
    requires Final(p, order).status != OutOfFunds
    ensures FewestTransfers(p) <= |Final(p, order).transfers| <= MostTransfers(p)
    ensures p.wallets < p.Size() ==> Final(p, order).transfers == []
  {
    hide Step, MostTransfers, Final, CeilDiv;
    var k := 1 + 2 * |order|;
    FinalAt(p, order);
    var s := At(p, order, k);
    Terminates(p, order);
    CompleteMeansMost(p, order);
    if p.wallets < p.Size() {
      TooFewWallets(p, order, k);
    } else {
      LeftOver(p, order, k);
      Sizes(p, order, k);
      if s.status == Complete {
        ZeroOrMore(p, |s.list| + s.Picks());
        RoundsAtMost(p);
      }
      AbandonedEmitsRounds(p, order, k);
      SpreadBound(p, |s.transfers|, |s.list| + s.Picks());
    }
  }

  lemma ZeroOrMore(p: Params, left: nat)
    requires p.Size() <= p.wallets && left <= p.Size() - 1 && left <= p.wallets * p.rounds
    ensures left <= (p.Size() - 1) * p.rounds
  {
    if p.rounds >= 1 {
      MulMonotone(1, p.rounds, p.Size() - 1);
    }
  }

  /** When every wallet appears once, nothing is abandoned and the number of transfers is fixed. */
  lemma SingleRound(p: Params, order: seq<nat>)
    requires p.Valid() && Shuffled(p, order) && p.rounds == 1
    requires Final(p, order).status != OutOfFunds
    ensures Final(p, order).status == Complete && |Final(p, order).transfers| == p.wallets / p.Size()
  {
    hide Step, Final;
    FinalAt(p, order);
    Terminates(p, order);
    CompleteMeansMost(p, order);
    OnceAround(p, order, 1 + 2 * |order|);
  }

  lemma {:induction false} OnceAround(p: Params, order: seq<nat>, k: nat)
    requires p.Valid() && Shuffled(p, order) && p.rounds == 1
    ensures At(p, order, k).status != Abandoned
  {
    hide Step, FullShape, SenderShape, Payout, Inputs;
    var s := At(p, order, k);
    StopReasons(p, order, k);
    if s.status == Abandoned {
      var x := s.list[0];
      assert x in multiset(s.list) && x in s.list;
      assert x in Picked(s.partial) && x in multiset(NamesOf(s.partial));
      OccurrenceAccounting(p, order, k, x);
    }
  }
}
