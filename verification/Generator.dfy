/** The workload object of the benchmark and its `generate`, proved to end in the final state of the machine. */
module Generator {
  import opened Common
  import opened Workload
  import opened Machine
  import opened Events
  import opened Invariants
  import opened Completion
  import opened Text
  import opened FileFormat
  import opened FileLoops

  datatype Outcome = Found | GaveUp | NoFunds

  // ----- The steps that the loops below take

  lemma SendStep(p: Params, s: State, i: nat, j: nat)
    requires s.Placed() && s.status == Running && !(s.AtBoundary() && |s.list| < p.Size())
    requires |s.partial.senders| < p.senders && FirstFree(s.list, s.cursor, Picked(s.partial), 0) == Some(i)
    requires i < |s.list| && j < p.coins
    requires FirstFit(s.ledger, s.list[i], p.Minted(s.list[i]), p.Debit(), 0) == Some(j)
    ensures var x, id := s.list[i], s.list[i] * p.coins + j;
            Step(p, s) == State(s.list[..i] + s.list[i + 1..],
                                if i == |s.list| - 1 then 0 else i,
                                s.ledger[(x, id) := Sub32(Held(s.ledger, (x, id)), p.Debit())],
                                s.transfers,
                                Transfer(s.partial.senders + [Share(x, [Coin(id, p.Debit())])], s.partial.receivers),
                                Running)
  {
    hide FirstFree, FirstFit, Params.Debit;
  }

  lemma ReceiveStep(p: Params, s: State, i: nat)
    requires s.Placed() && s.status == Running && !(s.AtBoundary() && |s.list| < p.Size())
    requires p.senders <= |s.partial.senders| && |s.partial.receivers| < p.receivers
    requires FirstFree(s.list, s.cursor, Picked(s.partial), 0) == Some(i) && i < |s.list|
    ensures var paid := Payout(p, Inputs(s.partial.senders));
            Step(p, s) == State(s.list[..i] + s.list[i + 1..],
                                if i == |s.list| - 1 then 0 else i,
                                CreditAll(s.ledger, s.list[i], paid),
                                s.transfers,
                                Transfer(s.partial.senders, s.partial.receivers + [Share(s.list[i], paid)]),
                                Running)
  {
    hide FirstFree, FirstFit, CreditAll, Payout, Inputs;
  }

  lemma StopStep(p: Params, s: State, status: Status)
    requires s.Placed() && s.status == Running
    requires
      match status
      case Running => false
      case Complete => s.AtBoundary() && |s.list| < p.Size()
      case Abandoned =>
        && !(s.AtBoundary() && |s.list| < p.Size())
        && (|s.partial.senders| < p.senders || |s.partial.receivers| < p.receivers)
        && FirstFree(s.list, s.cursor, Picked(s.partial), 0) == None
      case OutOfFunds =>
        && !(s.AtBoundary() && |s.list| < p.Size()) && |s.partial.senders| < p.senders
        && exists i: nat | i < |s.list| :: FirstFree(s.list, s.cursor, Picked(s.partial), 0) == Some(i)
             && FirstFit(s.ledger, s.list[i], p.Minted(s.list[i]), p.Debit(), 0) == None
    ensures Step(p, s) == s.(status := status)
  {
  }

  lemma NextAt(p: Params, order: seq<nat>, k: nat)
    ensures At(p, order, k + 1) == Step(p, At(p, order, k))
  {
    hide Step;
  }

  /** One more transfer is complete. */
  lemma EmitStep(p: Params, order: seq<nat>, k: nat)
    requires p.Valid() && Shuffled(p, order)
    ensures var s := At(p, order, k);
            s.status == Running && s.Picks() == p.Size() ==>
              At(p, order, k + 1) == s.(transfers := s.transfers + [s.partial], partial := NO_TRANSFER)
  {
    hide Step, FullShape;
    var s := At(p, order, k);
    Shapes(p, order, k);
    NextAt(p, order, k);
    if s.status == Running && s.Picks() == p.Size() {
      FullEmits(p, s);
    }
  }

  lemma FinishStep(p: Params, order: seq<nat>, k: nat)
    requires p.Valid() && Shuffled(p, order)
    ensures var s := At(p, order, k);
            s.status == Running && s.AtBoundary() && |s.list| < p.Size() ==>
              Final(p, order) == s.(status := Complete)
  {
    hide Step, Final;
    var s := At(p, order, k);
    NextAt(p, order, k);
    if s.status == Running && s.AtBoundary() && |s.list| < p.Size() {
      StopStep(p, s, Complete);
      StoppedIsFinal(p, order, k + 1);
    }
  }

  lemma FirstAt(p: Params, order: seq<nat>)
    ensures At(p, order, 0) == Init(p, order)
  {
    hide Step;
  }

  lemma NothingMinted(p: Params)
    ensures MintedBelow(p, 0) == map[] && WalletsBelow(p, 0) == map[]
    ensures p.coins == 0 ==> MintedWallets(p) == map[]
    ensures p.coins > 0 ==> p.Minted(0)[..0] == []
  {
  }

  lemma PriceIsDebit(p: Params)
    ensures p.Debit() == p.amount * p.receivers % TWO_32
  {
  }

  lemma InputsOne(senders: seq<Share>, a: nat)
    requires a < |senders|
    ensures Inputs(senders[..a + 1]) == Inputs(senders[..a]) + senders[a].coins
  {
    assert senders[..a + 1][..a] == senders[..a];
  }

  lemma PayoutOne(p: Params, coins: seq<Coin>, c: Coin)
    requires p.receivers > 0
    ensures Payout(p, coins + [c]) == Payout(p, coins) + [Coin(c.id, c.value / p.receivers)]
  {
  }

  lemma NothingPaid(p: Params)
    ensures p.receivers > 0 ==> Payout(p, Inputs([])) == []
  {
  }

  lemma NothingPicked()
    ensures Picked(NO_TRANSFER) == {}
  {
    assert NamesOf(NO_TRANSFER) == [];
  }

  lemma PickedGrows(es: seq<Share>, fs: seq<Share>, e: Share)
    ensures Picked(Transfer(es + [e], [])) == Picked(Transfer(es, [])) + {e.wallet}
    ensures Picked(Transfer(es, fs + [e])) == Picked(Transfer(es, fs)) + {e.wallet}
  {
    NamesGrow(Transfer(es, []), e);
    NamesGrow(Transfer(es, fs), e);
    assert Names([]) == [];
    assert forall x :: x in NamesOf(Transfer(es + [e], [])) <==> x in NamesOf(Transfer(es, [])) || x == e.wallet by {
      assert NamesOf(Transfer(es + [e], [])) == NamesOf(Transfer(es, [])) + [e.wallet];
    }
  }

  lemma ScanOne(list: seq<nat>, start: nat, picked: set<nat>, j: nat)
    requires start < |list| && j <= |list|
    ensures FirstFree(list, start, picked, j) ==
            if j == |list| then None
            else if list[Wrap(start + j, |list|)] !in picked then Some(Wrap(start + j, |list|))
            else FirstFree(list, start, picked, j + 1)
  {
  }

  /** The circular scan for an entry whose wallet is not in `picked`. */
  method Scan(list: seq<nat>, start: nat, picked: set<nat>) returns (cursor: nat, finish: bool)
    requires start < |list|
    ensures finish <==> FirstFree(list, start, picked, 0) == None
    ensures !finish ==> cursor < |list| && FirstFree(list, start, picked, 0) == Some(cursor)
  {
    hide FirstFree;
    cursor, finish := start, false;
    ghost var passed := 0;
    while list[cursor] in picked
      invariant passed < |list| && cursor < |list| && cursor == Wrap(start + passed, |list|)
      invariant FirstFree(list, start, picked, 0) == FirstFree(list, start, picked, passed)
      invariant !finish
      decreases |list| - passed
    {
      ScanOne(list, start, picked, passed);
      cursor := cursor + 1;
      if cursor == |list| {
        cursor := 0;
      }
      passed := passed + 1;
      if cursor == start {
        finish := true;
        break;
      }
    }
    ScanOne(list, start, picked, passed);
  }

  class CBDCBenchmarkWorkload {
    const numWallets: nat
    const coinsPerWallet: nat
    const transfersPerWallet: nat
    const sendersPerTransfer: nat
    const receiversPerTransfer: nat
    const coinInitialValue: nat
    const transferValue: nat
    const randomSeed: nat

    var generated: bool
    var wallets: map<nat, seq<Coin>>
    var transfers: seq<Transfer>
    var expectedFinalValues: Ledger

    constructor (p: Params)
      ensures Parameters() == p && !generated
      ensures wallets == map[] && transfers == [] && expectedFinalValues == map[]
    {
      numWallets := p.wallets;
      coinsPerWallet := p.coins;
      transfersPerWallet := p.rounds;
      sendersPerTransfer := p.senders;
      receiversPerTransfer := p.receivers;
      coinInitialValue := p.initial;
      transferValue := p.amount;
      randomSeed := p.seed;
      generated := false;
      wallets, transfers, expectedFinalValues := map[], [], map[];
    }

    function Parameters(): Params {
      Params(numWallets, coinsPerWallet, transfersPerWallet, sendersPerTransfer, receiversPerTransfer,
             coinInitialValue, transferValue, randomSeed)
    }

    /** Creates the wallets and their coins. */
    method MintCoins()
      requires coinInitialValue < TWO_32
      requires wallets == map[] && expectedFinalValues == map[]
      modifies `wallets, `expectedFinalValues
      ensures wallets == MintedWallets(Parameters())
      ensures expectedFinalValues == Mint(Parameters())
    {
      hide MintedBelow, WalletsBelow;
      ghost var p := Parameters();
      var cid: nat := 0;
      NothingMinted(p);
      for wid := 0 to numWallets
        invariant cid == wid * coinsPerWallet
        invariant wallets == WalletsBelow(p, wid)
        invariant expectedFinalValues == MintedBelow(p, cid)
      {
        NextWallet(p, wid);
        ghost var start := cid;
        for i := 0 to coinsPerWallet
          invariant cid == start + i
          invariant wallets == if i == 0 then WalletsBelow(p, wid) else WalletsBelow(p, wid)[wid := p.Minted(wid)[..i]]
          invariant expectedFinalValues == MintedBelow(p, cid)
        {
          MintOne(p, wid, i);
          NextMinted(p, wid, i);
          var coins := if wid in wallets then wallets[wid] else [];
          wallets := wallets[wid := coins + [Coin(cid, coinInitialValue)]];
          var item: Key := (wid, cid);
          expectedFinalValues := expectedFinalValues[item := Add32(Held(expectedFinalValues, item), coinInitialValue)];
          cid := cid + 1;
        }
        if coinsPerWallet > 0 {
          NextMinted(p, wid, 0);
        }
        Successor(wid, coinsPerWallet);
      }
    }

    /** Every wallet id as often as it is to be used, in order. */
    method ListWallets() returns (list: seq<nat>)
      ensures list == WalletList(Parameters(), numWallets)
    {
      ghost var p := Parameters();
      list := [];
      for wid := 0 to numWallets
        invariant list == WalletList(p, wid)
      {
        for i := 0 to transfersPerWallet
          invariant list == WalletList(p, wid) + Repeat(wid, i)
        {
          list := list + [wid];
        }
      }
    }

    /** The first coin of a sender that is worth the price; looking it up may create an empty wallet. */
    method FindCoin(sender: nat, price: nat) returns (found: bool, j: nat)
      requires sender < numWallets
      requires wallets == MintedWallets(Parameters())
      modifies `wallets
      ensures wallets == if coinsPerWallet > 0 then old(wallets) else old(wallets)[sender := []]
      ensures var r := FirstFit(expectedFinalValues, sender, Parameters().Minted(sender), price, 0);
              if found then j < coinsPerWallet && r == Some(j) else r == None
    {
      if sender !in wallets {
        wallets := wallets[sender := []];
      }
      var coins := wallets[sender];
      assert coins == Parameters().Minted(sender);
      found, j := false, 0;
      while j < |coins|
        invariant j <= |coins|
        invariant FirstFit(expectedFinalValues, sender, coins, price, 0)
               == FirstFit(expectedFinalValues, sender, coins, price, j)
      {
        if Held(expectedFinalValues, (sender, coins[j].id)) >= price {
          found := true;
          return;
        }
        j := j + 1;
      }
    }

    /** Credits a receiver with its part of every coin of every sender. */
    method PayReceiver(receiver: nat, senders: seq<Share>) returns (paid: seq<Coin>)
      requires receiversPerTransfer > 0
      modifies `expectedFinalValues
      ensures paid == Payout(Parameters(), Inputs(senders))
      ensures expectedFinalValues == CreditAll(old(expectedFinalValues), receiver, paid)
    {
      hide Payout, CreditAll, Inputs;
      ghost var p := Parameters();
      paid := [];
      NothingPaid(p);
      CreditNone(expectedFinalValues, receiver);
      assert senders[..0] == [];
      for a := 0 to |senders|
        invariant paid == Payout(p, Inputs(senders[..a]))
        invariant expectedFinalValues == CreditAll(old(expectedFinalValues), receiver, paid)
      {
        var coins := senders[a].coins;
        InputsOne(senders, a);
        assert Inputs(senders[..a]) + coins[..0] == Inputs(senders[..a]);
        for b := 0 to |coins|
          invariant paid == Payout(p, Inputs(senders[..a]) + coins[..b])
          invariant expectedFinalValues == CreditAll(old(expectedFinalValues), receiver, paid)
        {
          var value := coins[b].value / receiversPerTransfer;
          assert Inputs(senders[..a]) + coins[..b + 1] == Inputs(senders[..a]) + coins[..b] + [coins[b]];
          PayoutOne(p, Inputs(senders[..a]) + coins[..b], coins[b]);
          CreditOne(old(expectedFinalValues), receiver, paid, Coin(coins[b].id, value));
          paid := paid + [Coin(coins[b].id, value)];
          var item: Key := (receiver, coins[b].id);
          expectedFinalValues := expectedFinalValues[item := Add32(Held(expectedFinalValues, item), value)];
        }
        assert coins[..|coins|] == coins;
      }
      assert senders[..|senders|] == senders;
    }

    /** The object and these local variables are what the machine holds after `k` steps. */
    ghost predicate Tracks(order: seq<nat>, k: nat, list: seq<nat>, cursor: nat, t: Transfer, status: Status)
      reads this
    {
      At(Parameters(), order, k) == State(list, cursor, expectedFinalValues, transfers, t, status)
    }

    method PickSenders(ghost order: seq<nat>, ghost k0: nat, list0: seq<nat>, cursor0: nat, price: nat)
      returns (outcome: Outcome, list: seq<nat>, cursor: nat, senders: seq<Share>, picked: set<nat>, ghost k: nat)
      requires Parameters().Valid() && Shuffled(Parameters(), order) && price == Parameters().Debit()
      requires Tracks(order, k0, list0, cursor0, NO_TRANSFER, Running) && Parameters().Size() <= |list0|
      requires wallets == MintedWallets(Parameters())
      modifies `wallets, `expectedFinalValues
      ensures wallets == if coinsPerWallet == 0 && outcome == NoFunds then MintedWallets(Parameters())[list0[cursor0] := []]
                         else MintedWallets(Parameters())
      ensures coinsPerWallet == 0 && outcome == Found ==> sendersPerTransfer == 0
      ensures outcome != Found ==> sendersPerTransfer > 0
      ensures Tracks(order, k, list, cursor, Transfer(senders, []),
                     if outcome == Found then Running else if outcome == GaveUp then Abandoned else OutOfFunds)
      ensures picked == Picked(Transfer(senders, []))
      ensures outcome == Found ==> |senders| == sendersPerTransfer && |list| + |senders| == |list0|
    {
      hide Step, Shuffled, FirstFree, FirstFit, Params.Debit, MintedWallets, Picked, At, TakeSender;
      ghost var p := Parameters();
      outcome, list, cursor, senders, picked, k := Found, list0, cursor0, [], {}, k0;
      NothingPicked();
      while |senders| < sendersPerTransfer
        invariant wallets == MintedWallets(p) && outcome == Found
        invariant coinsPerWallet == 0 ==> senders == [] && list == list0 && cursor == cursor0
        invariant Tracks(order, k, list, cursor, Transfer(senders, []), Running)
        invariant picked == Picked(Transfer(senders, []))
        invariant |senders| <= sendersPerTransfer && |list| + |senders| == |list0|
      {
        ghost var s := At(p, order, k);
        NextAt(p, order, k);
        var i, finish := Scan(list, cursor, picked);
        if finish {
          StopStep(p, s, Abandoned);
          outcome, k := GaveUp, k + 1;
          return;
        }
        var sender := list[i];
        ListedWallets(p, order, k, i);
        var found, j := FindCoin(sender, price);
        if !found {
          if coinsPerWallet == 0 {
            ScanOne(list, cursor, picked, 0);
          }
          StopStep(p, s, OutOfFunds);
          outcome, k := NoFunds, k + 1;
          return;
        }
        SendStep(p, s, i, j);
        var coin := sender * coinsPerWallet + j;
        var share := Share(sender, [Coin(coin, price)]);
        PickedGrows(senders, [], share);
        picked := picked + {sender};
        senders := senders + [share];
        var item: Key := (sender, coin);
        expectedFinalValues := expectedFinalValues[item := Sub32(Held(expectedFinalValues, item), price)];
        list := list[..i] + list[i + 1..];
        cursor := if i == |list| then 0 else i;
        k := k + 1;
      }
    }

    method PickReceivers(ghost order: seq<nat>, ghost k0: nat, list0: seq<nat>, cursor0: nat, senders: seq<Share>,
                         picked0: set<nat>)
      returns (outcome: Outcome, list: seq<nat>, cursor: nat, receivers: seq<Share>, ghost k: nat)
      requires Parameters().Valid() && Shuffled(Parameters(), order)
      requires Tracks(order, k0, list0, cursor0, Transfer(senders, []), Running)
      requires picked0 == Picked(Transfer(senders, []))
      requires |senders| == sendersPerTransfer && Parameters().Size() <= |list0| + |senders|
      modifies `expectedFinalValues
      ensures Tracks(order, k, list, cursor, Transfer(senders, receivers),
                     if outcome == Found then Running else Abandoned)
      ensures outcome == Found ==> |receivers| == receiversPerTransfer && |list| + |receivers| == |list0|
      ensures outcome != NoFunds
    {
      hide Step, Shuffled, FirstFree, Params.Debit, Picked, CreditAll, Payout, TakeReceiver, At;
      ghost var p := Parameters();
      outcome, list, cursor, receivers, k := Found, list0, cursor0, [], k0;
      var picked := picked0;
      while |receivers| < receiversPerTransfer
        invariant outcome == Found
        invariant Tracks(order, k, list, cursor, Transfer(senders, receivers), Running)
        invariant picked == Picked(Transfer(senders, receivers))
        invariant |receivers| <= receiversPerTransfer && |list| + |receivers| == |list0|
      {
        ghost var s := At(p, order, k);
        NextAt(p, order, k);
        var i, finish := Scan(list, cursor, picked);
        if finish {
          StopStep(p, s, Abandoned);
          outcome, k := GaveUp, k + 1;
          return;
        }
        var receiver := list[i];
        ReceiveStep(p, s, i);
        var paid := PayReceiver(receiver, senders);
        PickedGrows(senders, receivers, Share(receiver, paid));
        picked := picked + {receiver};
        receivers := receivers + [Share(receiver, paid)];
        list := list[..i] + list[i + 1..];
        cursor := if i == |list| then 0 else i;
        k := k + 1;
      }
    }

    /**
     Generates the workload for the shuffle that turns the list of wallets into `order`. A result of `false`
     is the exception "Not enough funds".
     */
    method Generate(order: seq<nat>) returns (ok: bool)
      requires Parameters().Valid() && Shuffled(Parameters(), order)
      modifies this
      ensures old(generated) ==> ok && unchanged(this)
      ensures !old(generated) ==>
                var final := Final(Parameters(), order);
                && generated == ok == (final.status != OutOfFunds)
                && transfers == final.transfers && expectedFinalValues == final.ledger
                && (ok || coinsPerWallet > 0 ==> wallets == MintedWallets(Parameters()))
                && (!ok && coinsPerWallet == 0 ==> order != [] && wallets == map[order[0] := []])
    {
      hide Step, Shuffled, Params.Debit, MintedWallets, Mint, At, Final, Picked;
      if generated {
        return true;
      }
      wallets, transfers, expectedFinalValues := map[], [], map[];
      MintCoins();
      var list := ListWallets();
      list := order;  // shuffle_list

      ghost var p := Parameters();
      var price := transferValue * receiversPerTransfer % TWO_32;
      PriceIsDebit(p);
      NothingMinted(p);
      var cursor := 0;
      ghost var k := 0;
      FirstAt(p, order);
      while |list| >= sendersPerTransfer + receiversPerTransfer
        invariant wallets == MintedWallets(p)
        invariant coinsPerWallet == 0 && sendersPerTransfer > 0 ==> list == order && cursor == 0
        invariant price == p.Debit()
        invariant Tracks(order, k, list, cursor, NO_TRANSFER, Running)
        decreases |list|
      {
        var outcome, senders, picked, receivers;
        outcome, list, cursor, senders, picked, k := PickSenders(order, k, list, cursor, price);
        if outcome != Found {
          StoppedIsFinal(p, order, k);
          generated := outcome == GaveUp;
          return generated;
        }
        outcome, list, cursor, receivers, k := PickReceivers(order, k, list, cursor, senders, picked);
        if outcome != Found {
          StoppedIsFinal(p, order, k);
          generated := true;
          return true;
        }
        EmitStep(p, order, k);
        transfers := transfers + [Transfer(senders, receivers)];
        k := k + 1;
      }
      FinishStep(p, order, k);
      generated := true;
      return true;
    }

    /** All that a file holds of this object. */
    function ContentsOf(): Contents
      reads this
    {
      Contents(Parameters(), wallets, transfers, expectedFinalValues)
    }

    /** Writes the workload, generating it first if need be; nothing is written if that fails. */
    method ToFile(order: seq<nat>) returns (ok: bool, text: string)
      requires !generated ==> Parameters().Valid() && Shuffled(Parameters(), order)
      modifies this
      ensures old(generated) ==> ok && unchanged(this)
      ensures !old(generated) ==>
                var final := Final(Parameters(), order);
                && generated == ok == (final.status != OutOfFunds)
                && transfers == final.transfers && expectedFinalValues == final.ledger
                && (ok ==> wallets == MintedWallets(Parameters()))
      ensures text == if ok then FileText(ContentsOf()) else ""
    {
      hide Shuffled, Final, Params.Valid, MintedWallets, FileText;
      ok, text := true, "";
      if !generated {
        ok := Generate(order);
      }
      if ok {
        text := HeaderLine(Parameters(), |transfers|, |expectedFinalValues|);
        var walletLines := WalletLines(wallets);
        var transferLines := TransferLines(transfers);
        var ledgerLines := LedgerLines(expectedFinalValues);
        text := text + walletLines + transferLines + ledgerLines;
        FileParts(ContentsOf());
      }
    }

    /** Reads a workload; `null` stands for a stream on which some extraction fails. */
    static method FromFile(text: string) returns (r: CBDCBenchmarkWorkload?)
      ensures match ReadFile(Tokens(text))
              case None => r == null
              case Some((f, _)) => r != null && fresh(r) && r.generated && r.ContentsOf() == f
    {
      hide Tokens, ReadHeader, ReadWallets, ReadTransfers, ReadLedger;
      r := null;
      var ok, h, rest := ExtractHeader(text);
      if !ok {
        return;
      }
      var benchmark := new CBDCBenchmarkWorkload(h.p);
      var wallets, transfers, expected;
      ok, wallets, rest := ExtractWallets(rest, h.p);
      if !ok {
        return;
      }
      ok, transfers, rest := ExtractTransfers(rest, h.p, h.transferCount);
      if !ok {
        return;
      }
      ok, expected, rest := ExtractLedger(rest, h.expectedCount);
      if !ok {
        return;
      }
      benchmark.wallets, benchmark.transfers, benchmark.expectedFinalValues := wallets, transfers, expected;
      benchmark.generated := true;
      return benchmark;
    }
  }
}
